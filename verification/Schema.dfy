/** The ledger's tables (src/predict_agent/ledger_schema.py, src/predict_agent/db.py:25-117).

    Rows of append-only tables with generated ids are sequences, the id being the index; tables with
    a primary key of their own are maps, so the key is unique by construction. CHECK constraints that
    tie columns together are built into the row types where a datatype can say them.

    A SHA-256 digest is modelled as the value it digests: distinct records have distinct digests and
    none equals the genesis value. */
module Schema {
  import opened Prelude
  import opened Fills
  import opened PolicyParams
  import opened Policy
  import opened Settlement

  // ---------- digests ----------

  datatype Content = Text(text: string) | PolicyRecord(params: Params)
  datatype Digest = Sha(content: Content)
  datatype CohortId = CohortHash(identity: Identity)
  datatype PortfolioId = PortfolioHash(cohort: CohortId, variant: string)
  datatype ForecastDigest = ForecastHash(body: ForecastBody)
  datatype TicketDigest = TicketHash(body: TicketBody)
  datatype CashDigest =
    | Genesis
    | CashHash(portfolio: PortfolioId, kind: CashKind, amount: real, ticket: Option<nat>, at: int, prev: CashDigest)

  // ---------- rows ----------

  datatype ArtifactKind = PromptArtifact | PolicyArtifact | ResearchInput | ToolTranscript
  datatype Artifact = Artifact(kind: ArtifactKind, content: Content)

  datatype Variant = Variant(name: string, policy: Digest)

  /** A research identity. Its portfolios are listed in variant order, as canonical JSON lists them. */
  datatype Identity = Identity(
    portfolios: seq<Variant>,
    promptHash: Digest,
    modelId: string,
    perForecastUsd: Option<real>,
    scoringVersion: string,
    window: int,
    generation: int)

  datatype CohortStatus = ActiveCohort | ClosedCohort
  datatype Cohort = Cohort(identity: Identity, bankroll: real, window: int, status: CohortStatus)

  datatype Portfolio = Portfolio(cohort: CohortId, variant: string, policy: Digest, bankroll: real)

  datatype Kind = Entry | Update

  /** The three CHECKs on finished_at, cost_usd and error are the shape of the status. */
  datatype AttemptStatus =
    | Started
    | Succeeded(finishedAt: int, cost: real)
    | Failed(finishedAt: int, cost: real, error: string)
  datatype Attempt = Attempt(cohort: CohortId, condition: string, kind: Kind, startedAt: int, status: AttemptStatus)

  datatype ForecastBody = ForecastBody(
    attempt: nat,
    cohort: CohortId,
    condition: string,
    rulesHash: string,
    kind: Kind,
    createdAt: int,
    abstained: bool,
    abstainReason: Option<string>,
    bands: Option<Bands>,
    confidence: Option<Confidence>,
    baseRate: Option<real>,
    inputHash: Digest,
    transcriptHash: Digest,
    cost: real)
  datatype Forecast = Forecast(body: ForecastBody, hash: ForecastDigest)

  datatype Snapshot = Snapshot(
    condition: string,
    side: Side,
    fetchedAt: int,
    asks: seq<AskLevel>,
    tickSize: real,
    minOrderSize: real,
    feesEnabled: bool,
    feeSchedule: Option<FeeSchedule>)

  datatype Baseline = Timely(yes: nat, no: nat, at: int) | NoTimelyBaseline(at: int)

  datatype TicketBody = TicketBody(
    portfolio: PortfolioId,
    forecast: nat,
    snapshot: nat,
    condition: string,
    side: Side,
    shares: real,
    fills: seq<Fill>,
    fee: real,
    cost: real,
    policy: Digest,
    rulesHash: string,
    createdAt: int)
  datatype TicketStatus = OpenTicket | SettledTicket
  datatype Ticket = Ticket(body: TicketBody, status: TicketStatus, hash: TicketDigest)

  datatype RefusalCode = CohortClosed | ByPolicy(reason: Refusal)
  datatype DecisionKind = Traded(ticket: nat) | RefusedFor(code: RefusalCode) | NoTimely
  datatype DecisionRow = DecisionRow(condition: string, kind: DecisionKind, at: int)

  datatype CashKind = Funding | Debit | Credit
  datatype CashEntry = CashEntry(
    portfolio: PortfolioId, kind: CashKind, amount: real, ticket: Option<nat>, at: int, hash: CashDigest)

  datatype SettlementRow = SettlementRow(
    observation: nat, outcome: Outcome, payoutPerShare: real, payout: real, netPnl: real, at: int)

  datatype Market = Market(event: string, category: string, rulesHash: string)

  datatype Tables = Tables(
    artifacts: map<Digest, Artifact>,
    markets: map<string, Market>,
    rules: map<(string, string), Option<int>>,
    discovered: set<string>,
    snapshots: seq<Snapshot>,
    observations: seq<Observation>,
    cohorts: map<CohortId, Cohort>,
    portfolios: map<PortfolioId, Portfolio>,
    attempts: seq<Attempt>,
    forecasts: seq<Forecast>,
    baselines: map<nat, Baseline>,
    tickets: seq<Ticket>,
    decisions: map<(PortfolioId, nat), DecisionRow>,
    cash: seq<CashEntry>,
    settlements: map<nat, SettlementRow>)

  const EMPTY := Tables(map[], map[], map[], {}, [], [], map[], map[], [], [], map[], [], map[], [], map[])

  datatype LedgerError =
    | UnknownPortfolio | UnknownForecast | UnknownMarket | UnknownSnapshot | UnknownTicket | MissingArtifact
    | InvalidAmount | AlreadyFunded | WrongBacking | InsufficientCash
    | InvalidDraft | CohortNotActive | PolicyDiffers | BadForecast | RulesDiffer | AlreadyDecided
    | WrongSnapshot | AlreadyTradedMarket | NoBaselineYet | AlreadyBaselined | OutsideWindow | WindowOpen
    | InvalidIdentity | DifferentBankroll | ClosedIdentity | AttemptNotStarted | InvalidForecast | DuplicateEntry
    | UnreadablePolicy

  /** One database connection. Every SQL statement that writes reassigns `db`; ROLLBACK
      (src/predict_agent/db.py:208-216) puts back the tables of the transaction's BEGIN. */
  class Connection {
    var db: Tables

    constructor ()
      ensures db == EMPTY
    {
      db := EMPTY;
    }
  }
}
