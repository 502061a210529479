/** The ledger as a state machine: every committed transaction, in any order. A transaction that
    raises commits nothing, so a rolled-back step leaves the tables as they were. */
module Steps {
  import opened Prelude
  import opened Settlement
  import opened Schema
  import opened Cohorts
  import opened Forecasts
  import opened Paper
  import opened Settling

  datatype Op =
    | StoreArtifact(artifact: ArtifactKind, content: Content)
    | ListMarket(condition: string, market: Market, endDate: Option<int>)
    | CompleteDiscovery(conditions: set<string>)
    | StoreSnapshot(snapshot: Snapshot)
    | Observe(observation: Observation)
    | OpenCohort(identity: Identity, bankroll: real, now: int)
    | BeginAttempt(cohort: CohortId, condition: string, kind: Kind, now: int)
    | CloseAttempt(attempt: nat, cost: real, error: string, now: int)
    | Record(body: ForecastBody)
    | Attach(forecast: nat, yes: nat, no: nat, now: int)
    | MarkMissing(forecast: nat, now: int)
    | DecideOn(portfolio: PortfolioId, forecast: nat, now: int)
    | Settle(ticket: nat, now: int)

  /** A market's rules version and its row, in one transaction (src/predict_agent/collect.py:84-201):
      a known rules version is kept, and a known market keeps its event. */
  function MarketListed(t: Tables, condition: string, market: Market, endDate: Option<int>): Tables {
    var key := (condition, market.rulesHash);
    t.(rules := if key in t.rules then t.rules else t.rules[key := endDate],
       markets := t.markets[condition :=
                    if condition in t.markets then market.(event := t.markets[condition].event) else market])
  }

  function Committed(t: Tables, result: Result<Tables, LedgerError>): Tables {
    if result.Ok? then result.value else t
  }

  function Apply(t: Tables, op: Op): Tables {
    match op
    case StoreArtifact(kind, content) => Committed(t, ArtifactStored(t, kind, content))
    case ListMarket(condition, market, endDate) => MarketListed(t, condition, market, endDate)
    case CompleteDiscovery(conditions) => t.(discovered := conditions)
    case StoreSnapshot(snapshot) => t.(snapshots := t.snapshots + [snapshot])
    case Observe(o) => t.(observations := t.observations + [o.(id := |t.observations|)])
    case OpenCohort(identity, bankroll, now) => Committed(t, CohortEnsured(t, identity, bankroll, now))
    case BeginAttempt(cohort, condition, kind, now) => Committed(t, AttemptStarted(t, cohort, condition, kind, now))
    case CloseAttempt(attempt, cost, error, now) => Committed(t, AttemptFailed(t, attempt, cost, error, now))
    case Record(body) => Committed(t, ForecastRecorded(t, body))
    case Attach(forecast, yes, no, now) => Committed(t, BaselineAttached(t, forecast, yes, no, now))
    case MarkMissing(forecast, now) => Committed(t, MarkedNoTimely(t, forecast, now))
    case DecideOn(portfolio, forecast, now) =>
      var r := Decided(t, portfolio, forecast, now);
      if r.Ok? then r.value.0 else t
    case Settle(ticket, now) =>
      if ticket >= |t.tickets| then t
      else
        var r := TicketSettled(t, ticket, now);
        if r.Ok? then r.value.0 else t
  }

  function Run(t: Tables, ops: seq<Op>): Tables
    decreases |ops|
  {
    if ops == [] then t else Run(Apply(t, ops[0]), ops[1..])
  }

  /** Ask prices of one book are distinct: `parse_book` does not merge levels, and the auditor keeps
      one recorded size per price. */
  predicate DistinctAsks(s: Snapshot) {
    forall i, j | 0 <= i < j < |s.asks| :: s.asks[i].price != s.asks[j].price
  }

  /** What is asked of the outside world. */
  predicate Admissible(op: Op) {
    op.StoreSnapshot? ==> DistinctAsks(op.snapshot)
  }

  // ---------- growth ----------

  /** `t'` keeps every row of `t`; only the documented transitions change one: a cohort or a ticket
      leaves its first status, a STARTED attempt is closed. */
  ghost predicate Extends(t: Tables, t': Tables) {
    && (forall d | d in t.artifacts :: d in t'.artifacts && t'.artifacts[d] == t.artifacts[d])
    && (forall r | r in t.rules :: r in t'.rules)
    && t.snapshots <= t'.snapshots
    && t.observations <= t'.observations
    && t.forecasts <= t'.forecasts
    && (forall c | c in t.cohorts :: c in t'.cohorts && SameCohort(t.cohorts[c], t'.cohorts[c]))
    && (forall p | p in t.portfolios :: p in t'.portfolios && t'.portfolios[p] == t.portfolios[p])
    && |t.attempts| <= |t'.attempts|
    && (forall a: nat | a < |t.attempts| :: t.attempts[a].status == Started || t'.attempts[a] == t.attempts[a])
    && (forall b | b in t.baselines :: b in t'.baselines && t'.baselines[b] == t.baselines[b])
    && (forall d | d in t.decisions :: d in t'.decisions && t'.decisions[d] == t.decisions[d])
    && (forall k | k in t.settlements :: k in t'.settlements && t'.settlements[k] == t.settlements[k])
    && |t.tickets| <= |t'.tickets|
    && (forall k: nat | k < |t.tickets| :: SameTicket(t.tickets[k], t'.tickets[k]))
  }

  predicate SameCohort(a: Cohort, b: Cohort) {
    a.identity == b.identity && a.bankroll == b.bankroll && a.window == b.window
  }

  predicate SameTicket(a: Ticket, b: Ticket) {
    a.body == b.body && a.hash == b.hash
  }
}
