/** EVERY REACHABLE LEDGER IS AUDIT-CLEAN, whatever transactions committed and in whatever order, and
    so balances to the last unit. */
module Ledger {
  import opened Sums
  import opened Schema
  import opened Cash
  import opened Cohorts
  import opened Forecasts
  import opened Tickets
  import opened Paper
  import opened Settling
  import opened Invariants
  import opened Accounting
  import opened Steps
  import opened Reachability
  import opened TradeSteps
  import opened SettleSteps
  import opened CohortSteps

  lemma OutsideStep(t: Tables, op: Op)
    requires Inv(t) && Admissible(op)
    requires op.StoreArtifact? || op.ListMarket? || op.CompleteDiscovery? || op.StoreSnapshot? || op.Observe?
             || op.BeginAttempt? || op.CloseAttempt?
    ensures Inv(Apply(t, op))
  {
    hide Inv, Extends, OutsideLedger, SoundOutside, CohortEnsured, Decided, TicketSettled, ForecastRecorded,
         BaselineAttached, MarkedNoTimely, ArtifactStored, AttemptStarted, AttemptFailed, MarketListed;
    InvSoundOutside(t);
    match op {
      case StoreArtifact(kind, content) => ArtifactStoredSound(t, kind, content);
      case ListMarket(condition, market, endDate) => MarketListedSound(t, condition, market, endDate);
      case CompleteDiscovery(conditions) => DiscoveredSound(t, conditions);
      case StoreSnapshot(snapshot) => SnapshotStoredSound(t, snapshot);
      case Observe(o) => ObservedSound(t, o);
      case BeginAttempt(cohort, condition, kind, now) => AttemptStartedSound(t, cohort, condition, kind, now);
      case CloseAttempt(attempt, cost, error, now) => AttemptFailedSound(t, attempt, cost, error, now);
      case _ =>
    }
    OutsideInv(t, Apply(t, op));
  }

  lemma DiscoveredSound(t: Tables, conditions: set<string>)
    requires SoundOutside(t)
    ensures var t' := t.(discovered := conditions);
            Extends(t, t') && OutsideLedger(t, t') && SoundOutside(t')
  {
  }

  /** One transaction, committed or rolled back. */
  lemma StepInv(t: Tables, op: Op)
    requires Inv(t) && Admissible(op)
    ensures Inv(Apply(t, op))
  {
    hide Inv, Decided, TicketSettled, CohortEnsured, ForecastRecorded, BaselineAttached, MarkedNoTimely,
         ArtifactStored, AttemptStarted, AttemptFailed, MarketListed;
    match op {
      case OpenCohort(identity, bankroll, now) =>
        if CohortEnsured(t, identity, bankroll, now).Ok? {
          CohortEnsuredInv(t, identity, bankroll, now);
        }
      case Record(body) =>
        if ForecastRecorded(t, body).Ok? {
          ForecastRecordedInv(t, body);
        }
      case Attach(forecast, yes, no, now) =>
        if BaselineAttached(t, forecast, yes, no, now).Ok? {
          BaselineAttachedInv(t, forecast, yes, no, now);
        }
      case MarkMissing(forecast, now) =>
        if MarkedNoTimely(t, forecast, now).Ok? {
          MarkedNoTimelyInv(t, forecast, now);
        }
      case DecideOn(portfolio, forecast, now) =>
        if Decided(t, portfolio, forecast, now).Ok? {
          DecidedInv(t, portfolio, forecast, now);
        }
      case Settle(ticket, now) =>
        if ticket < |t.tickets| && TicketSettled(t, ticket, now).Ok? {
          SettleInv(t, ticket, now);
        }
      case _ => OutsideStep(t, op);
    }
  }

  lemma EmptyInv()
    ensures Inv(EMPTY)
  {
  }

  lemma {:induction false} RunInv(t: Tables, ops: seq<Op>)
    requires Inv(t) && forall op | op in ops :: Admissible(op)
    ensures Inv(Run(t, ops))
    decreases |ops|
  {
    hide Inv;
    if ops != [] {
      StepInv(t, ops[0]);
      RunInv(Apply(t, ops[0]), ops[1..]);
    }
  }

  /** The auditor reports nothing after any run, and every portfolio's books balance. */
  lemma EveryRunAuditsClean(ops: seq<Op>)
    requires forall op | op in ops :: Admissible(op)
    ensures var t := Run(EMPTY, ops);
            && AuditClean(t)
            && forall p | p in t.portfolios ::
                 CashBalance(t, p) + OpenCost(t, p) == t.portfolios[p].bankroll + SumTo(|t.tickets|, NetPnl(t, p))
  {
    EmptyInv();
    RunInv(EMPTY, ops);
    var t := Run(EMPTY, ops);
    forall p | p in t.portfolios
      ensures CashBalance(t, p) + OpenCost(t, p) == t.portfolios[p].bankroll + SumTo(|t.tickets|, NetPnl(t, p))
    {
      hide AuditClean;
      CleanAuditBalances(t, p);
    }
  }
}
