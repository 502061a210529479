/** The ledger auditor (src/predict_agent/invariants.py): every accounting relation between records,
    re-derived from the rows alone. A `...Clean` predicate says that the check of that name reports
    nothing. */
module Invariants {
  import opened Prelude
  import opened Time
  import opened Sums
  import opened Fills
  import opened PolicyParams
  import opened Policy
  import opened Settlement
  import opened Schema
  import opened Cash
  import opened Cohorts
  import opened Forecasts
  import opened Tickets

  predicate ArtifactsClean(t: Tables) {
    forall d | d in t.artifacts :: Sha(t.artifacts[d].content) == d
  }

  predicate OneActive(t: Tables) {
    forall a, b | a in t.cohorts && b in t.cohorts ::
      t.cohorts[a].status == ActiveCohort && t.cohorts[b].status == ActiveCohort ==> a == b
  }

  predicate Declares(identity: Identity, name: string, policy: Digest) {
    exists v | v in identity.portfolios :: v.name == name && v.policy == policy
  }

  predicate PortfolioRowClean(t: Tables, p: PortfolioId, c: CohortId)
    requires p in t.portfolios && c in t.cohorts
  {
    var row := t.portfolios[p];
    && p == PortfolioHash(c, row.variant)
    && Declares(t.cohorts[c].identity, row.variant, row.policy)
    && IsArtifact(t, row.policy, PolicyArtifact)
    && row.bankroll == t.cohorts[c].bankroll
  }

  /** The identity hashes to the cohort's id, its prompt is stored, and its portfolios are exactly the
      declared ones, each with the declared policy and the cohort's bankroll. */
  predicate CohortClean(t: Tables, c: CohortId)
    requires c in t.cohorts
  {
    var row := t.cohorts[c];
    && CohortHash(row.identity) == c
    && row.identity.window == row.window
    && IsArtifact(t, row.identity.promptHash, PromptArtifact)
    && (forall v | v in row.identity.portfolios :: PortfolioHash(c, v.name) in t.portfolios
                                                 && t.portfolios[PortfolioHash(c, v.name)].cohort == c)
    && (forall p | p in t.portfolios && t.portfolios[p].cohort == c :: PortfolioRowClean(t, p, c))
  }

  predicate FundedOnceFirst(rows: seq<CashEntry>, bankroll: real) {
    && rows != [] && rows[0].kind == Funding && rows[0].amount == bankroll
    && forall i | 1 <= i < |rows| :: rows[i].kind != Funding
  }

  predicate NeverNegative(rows: seq<CashEntry>) {
    forall i | 0 <= i <= |rows| :: Balance(rows[..i]) >= 0.0
  }

  predicate OwnsEntry(t: Tables, p: PortfolioId, e: CashEntry) {
    e.ticket.Some? ==> e.ticket.value < |t.tickets| && t.tickets[e.ticket.value].body.portfolio == p
  }

  ghost predicate CashClean(t: Tables, p: PortfolioId)
    requires p in t.portfolios
  {
    var rows := CashOf(t.cash, p);
    && Chained(rows, p)
    && FundedOnceFirst(rows, t.portfolios[p].bankroll)
    && NeverNegative(rows)
    && forall e | e in rows :: OwnsEntry(t, p, e)
  }

  predicate BaselineClean(t: Tables, f: nat)
    requires ForecastKnown(t, f) && f in t.baselines
  {
    match t.baselines[f]
    case NoTimelyBaseline(_) => true
    case Timely(yes, no, _) => TimelySnapshot(t, f, yes, YES) && TimelySnapshot(t, f, no, NO)
  }

  predicate ForecastClean(t: Tables, f: nat)
    requires f < |t.forecasts|
  {
    var b := t.forecasts[f].body;
    && t.forecasts[f].hash == ForecastHash(b)
    && IsArtifact(t, b.inputHash, ResearchInput)
    && IsArtifact(t, b.transcriptHash, ToolTranscript)
    && b.attempt < |t.attempts|
    && (var a := t.attempts[b.attempt];
        a.status.Succeeded? && a.cohort == b.cohort && a.condition == b.condition && a.status.cost == b.cost)
    && ForecastKnown(t, f)
    && (f in t.baselines ==> BaselineClean(t, f))
  }

  /** Amounts of the ticket's entries of one kind, in entry order. */
  function Amounts(cash: seq<CashEntry>, ticket: nat, kind: CashKind): seq<real> {
    if cash == [] then []
    else Amounts(cash[..|cash| - 1], ticket, kind) +
         (var e := cash[|cash| - 1]; if e.ticket == Some(ticket) && e.kind == kind then [e.amount] else [])
  }

  predicate BackedByForecast(t: Tables, b: TicketBody) {
    && b.portfolio in t.portfolios
    && b.policy == t.portfolios[b.portfolio].policy
    && b.forecast < |t.forecasts|
    && (var f := t.forecasts[b.forecast].body;
        && f.cohort == t.portfolios[b.portfolio].cohort
        && f.condition == b.condition && f.kind == Entry && !f.abstained && f.rulesHash == b.rulesHash)
    && SideSnapshot(t, b.forecast, b.side) == Some(b.snapshot)
  }

  predicate TradedDecision(t: Tables, k: nat, b: TicketBody) {
    (b.portfolio, b.forecast) in t.decisions && t.decisions[(b.portfolio, b.forecast)].kind == Traded(k)
  }

  predicate SettlementClean(t: Tables, b: TicketBody, s: SettlementRow) {
    && s.observation < |t.observations|
    && (var o := t.observations[s.observation];
        && o.id == s.observation
        && o.condition == b.condition && o.status == Resolved && o.crossCheck == Confirmed
        && o.outcome == Some(s.outcome) && Settleable(s.outcome))
    && (var perShare := PayoutPerShare(b.side, s.outcome);
        && s.payoutPerShare == perShare
        && s.payout == b.shares * perShare
        && s.netPnl == b.shares * perShare - b.cost)
  }

  predicate TicketClean(t: Tables, k: nat)
    requires k < |t.tickets|
  {
    var row := t.tickets[k];
    && row.hash == TicketHash(row.body)
    && BackedByForecast(t, row.body)
    && TradedDecision(t, k, row.body)
    && Amounts(t.cash, k, Debit) == [row.body.cost]
    && (row.status == SettledTicket <==> k in t.settlements)
    && Amounts(t.cash, k, Credit) == (if k in t.settlements then [t.settlements[k].payout] else [])
    && (k in t.settlements ==> SettlementClean(t, row.body, t.settlements[k]))
  }

  /** The recorded size at each price; a repeated price keeps its last size, as a Python dict does. */
  function DepthAt(asks: seq<AskLevel>): map<real, real> {
    if asks == [] then map[]
    else DepthAt(asks[..|asks| - 1])[asks[|asks| - 1].price := asks[|asks| - 1].size]
  }

  predicate DistinctPrices(fills: seq<Fill>) {
    forall i, j | 0 <= i < j < |fills| :: fills[i].price != fills[j].price
  }

  predicate WithinRecordedBook(fills: seq<Fill>, asks: seq<AskLevel>) {
    && fills != [] && DistinctPrices(fills)
    && forall f | f in fills ::
         f.price in DepthAt(asks) && 0.0 < f.shares <= DepthAt(asks)[f.price]
  }

  /** The policy a ticket was decided under, readable or not; its kind is checked elsewhere. */
  function TicketPolicy(t: Tables, digest: Digest): Option<Params> {
    if digest !in t.artifacts || Sha(t.artifacts[digest].content) != digest then None
    else match t.artifacts[digest].content
      case Text(_) => None
      case PolicyRecord(params) => if ValidParams(params) then Some(params) else None
  }

  /** Fee, shares and cost re-derived level by level from the snapshot's own fee schedule. */
  predicate MoneyMatches(s: Snapshot, b: TicketBody) {
    && (s.feesEnabled ==> FeeRate(s.feeSchedule).Some?)
    && (var rate := if s.feesEnabled then FeeRate(s.feeSchedule).value else 0.0;
        && b.fee == SumOf(b.fills, FillFee(rate))
        && b.cost == SumOf(b.fills, FillNotional()) + b.fee
        && b.shares == SumOf(b.fills, FillShares()))
  }

  predicate UnderSlippage(fills: seq<Fill>, asks: seq<AskLevel>, params: Params) {
    asks != [] && forall f | f in fills :: f.price <= BestAsk(asks) * (1.0 + params.maxSlippage)
  }

  predicate BookYoung(s: Snapshot, b: TicketBody, params: Params) {
    0 <= b.createdAt - s.fetchedAt <= params.maxBookAgeSeconds * SECOND
  }

  /** Fills from the ticket's own recorded book, with per-level fees, within the policy's slippage
      limit, decided while the book was young enough. */
  predicate FillsMatch(s: Snapshot, params: Option<Params>, b: TicketBody) {
    && WithinRecordedBook(b.fills, s.asks) && MoneyMatches(s, b)
    && params.Some? && UnderSlippage(b.fills, s.asks, params.value) && BookYoung(s, b, params.value)
  }

  predicate FillsClean(t: Tables, b: TicketBody) {
    b.snapshot < |t.snapshots| && FillsMatch(t.snapshots[b.snapshot], TicketPolicy(t, b.policy), b)
  }

  predicate DecisionsClean(t: Tables) {
    forall d | d in t.decisions :: DecisionRowClean(t, d)
  }

  predicate DecisionRowClean(t: Tables, d: (PortfolioId, nat)) {
    && d.0 in t.portfolios && d.1 < |t.forecasts|
    && t.portfolios[d.0].cohort == t.forecasts[d.1].body.cohort && t.forecasts[d.1].body.kind == Entry
  }

  /** References the per-record checks cannot see from their parents. */
  predicate ForeignKeys(t: Tables) {
    && (forall p | p in t.portfolios :: t.portfolios[p].cohort in t.cohorts)
    && (forall a | a in t.attempts :: a.cohort in t.cohorts)
    && (forall f | f in t.forecasts :: (f.body.condition, f.body.rulesHash) in t.rules)
    && (forall f | f in t.baselines :: f < |t.forecasts|)
    && (forall e | e in t.cash :: e.portfolio in t.portfolios && (e.ticket.Some? ==> e.ticket.value < |t.tickets|))
    && (forall k | k in t.settlements :: k < |t.tickets|)
    && (forall d | d in t.decisions ::
          t.decisions[d].kind.Traded? ==> t.decisions[d].kind.ticket < |t.tickets|)
  }

  /** The CHECK on cash rows: FUNDING exactly when there is no ticket. */
  predicate CashChecked(t: Tables) {
    forall e | e in t.cash :: e.kind == Funding <==> e.ticket.None?
  }

  predicate CohortsClean(t: Tables) {
    forall c | c in t.cohorts :: CohortClean(t, c)
  }

  ghost predicate CashAllClean(t: Tables) {
    forall p | p in t.portfolios :: CashClean(t, p)
  }

  predicate ForecastsClean(t: Tables) {
    forall f: nat | f < |t.forecasts| :: ForecastClean(t, f)
  }

  predicate TicketsClean(t: Tables) {
    forall k: nat | k < |t.tickets| :: TicketClean(t, k)
  }

  predicate AllFillsClean(t: Tables) {
    forall k: nat | k < |t.tickets| :: FillsClean(t, t.tickets[k].body)
  }

  /** `verify_ledger` reports nothing. */
  ghost predicate AuditClean(t: Tables) {
    && ArtifactsClean(t) && ForeignKeys(t) && OneActive(t) && CohortsClean(t) && CashAllClean(t)
    && ForecastsClean(t) && TicketsClean(t) && AllFillsClean(t) && DecisionsClean(t)
  }

  // ---------- the auditor, as it runs ----------

  datatype Problem =
    | TriggerMissing | ChainBroken | NotFundedOnceFirst | WentNegative | ForeignTicket | NegativeCash
    | ArtifactDiffers | ForeignKeyViolation | ManyActiveCohorts | CohortDiffers | ForecastDiffers | TicketDiffers
    | FillsDiffer | DecisionDiffers

  function Fundings(rows: seq<CashEntry>): (r: seq<CashEntry>)
    ensures |r| <= |rows|
    ensures r == [] <==> forall e | e in rows :: e.kind != Funding
  {
    if rows == [] then [] else (if rows[0].kind == Funding then [rows[0]] else []) + Fundings(rows[1..])
  }

  lemma FundingsFirst(rows: seq<CashEntry>, bankroll: real)
    ensures (rows != [] && |Fundings(rows)| == 1 && rows[0].kind == Funding && Fundings(rows)[0].amount == bankroll)
            <==> FundedOnceFirst(rows, bankroll)
  {
    if rows != [] && rows[0].kind == Funding {
      assert Fundings(rows) == [rows[0]] + Fundings(rows[1..]);
      assert forall i | 1 <= i < |rows| :: rows[i] == rows[1..][i - 1];
      if Fundings(rows[1..]) == [] {
        assert forall i | 1 <= i < |rows| :: rows[i] in rows[1..];
      }
    }
  }

  /** The first loop: the chain is recomputed and reported at its first break. */
  method ChainProblems(rows: seq<CashEntry>, p: PortfolioId) returns (problems: seq<Problem>)
    ensures problems == [] <==> Chained(rows, p)
  {
    problems := [];
    var prev := Genesis;
    var i := 0;
    while i < |rows|
      invariant 0 <= i <= |rows| && problems == []
      invariant prev == Head(rows[..i])
      invariant forall k | 0 <= k < i ::
                  rows[k].hash == CashHash(p, rows[k].kind, rows[k].amount, rows[k].ticket, rows[k].at, Head(rows[..k]))
    {
      var row := rows[i];
      if CashHash(p, row.kind, row.amount, row.ticket, row.at, prev) != row.hash {
        return [ChainBroken];
      }
      prev := row.hash;
      i := i + 1;
      assert rows[..i][|rows[..i]| - 1] == row;
    }
  }

  /** The second loop: the running balance, reported when it first goes negative, and each entry's owner. */
  method BalanceProblems(conn: Connection, rows: seq<CashEntry>, p: PortfolioId) returns (problems: seq<Problem>)
    ensures problems == [] <==> NeverNegative(rows) && forall e | e in rows :: OwnsEntry(conn.db, p, e)
  {
    problems := [];
    var balance := 0.0;
    var i := 0;
    while i < |rows|
      invariant 0 <= i <= |rows|
      invariant balance == Balance(rows[..i])
      invariant forall k | 0 <= k <= i :: Balance(rows[..k]) >= 0.0
      invariant problems == [] <==> forall k | 0 <= k < i :: OwnsEntry(conn.db, p, rows[k])
    {
      var row := rows[i];
      SumPrefix(rows, i, SignedAmount());
      balance := balance + Signed(row);
      if balance < 0.0 {
        assert Balance(rows[..i + 1]) < 0.0;
        return problems + [WentNegative];
      }
      if !OwnsEntry(conn.db, p, row) {
        problems := problems + [ForeignTicket];
      }
      i := i + 1;
    }
  }

  /** The audit of one portfolio's cash reports nothing exactly when its cash is clean. */
  method CashProblems(conn: Connection, p: PortfolioId) returns (problems: seq<Problem>)
    requires p in conn.db.portfolios
    ensures problems == [] <==> CashClean(conn.db, p)
  {
    var rows := CashOf(conn.db.cash, p);
    problems := ChainProblems(rows, p);
    var fundings := Fundings(rows);
    FundingsFirst(rows, conn.db.portfolios[p].bankroll);
    if rows == [] || |fundings| != 1 || rows[0].kind != Funding
      || fundings[0].amount != conn.db.portfolios[p].bankroll {
      problems := problems + [NotFundedOnceFirst];
    }
    var balances := BalanceProblems(conn, rows, p);
    problems := problems + balances;
    var available := AvailableCash(conn, p);
    assert rows[..|rows|] == rows;
    if available < 0.0 {
      problems := problems + [NegativeCash];
    }
  }

  method Report(problems: seq<Problem>, clean: bool, problem: Problem) returns (all: seq<Problem>)
    ensures all == [] <==> problems == [] && clean
  {
    all := if clean then problems else problems + [problem];
  }

  method EachCohort(conn: Connection) returns (problems: seq<Problem>)
    ensures problems == [] <==> CohortsClean(conn.db)
  {
    hide CohortClean;
    problems := [];
    var left := conn.db.cohorts.Keys;
    while left != {}
      invariant left <= conn.db.cohorts.Keys
      invariant problems == [] <==> forall c | c in conn.db.cohorts && c !in left :: CohortClean(conn.db, c)
      decreases left
    {
      var c :| c in left;
      problems := Report(problems, CohortClean(conn.db, c), CohortDiffers);
      left := left - {c};
    }
  }

  method EachPortfolio(conn: Connection) returns (problems: seq<Problem>)
    ensures problems == [] <==> CashAllClean(conn.db)
  {
    hide CashClean;
    problems := [];
    var left := conn.db.portfolios.Keys;
    while left != {}
      invariant left <= conn.db.portfolios.Keys
      invariant problems == [] <==> forall p | p in conn.db.portfolios && p !in left :: CashClean(conn.db, p)
      decreases left
    {
      var p :| p in left;
      var found := CashProblems(conn, p);
      problems := problems + found;
      left := left - {p};
    }
  }

  method EachForecast(conn: Connection) returns (problems: seq<Problem>)
    ensures problems == [] <==> ForecastsClean(conn.db)
  {
    hide ForecastClean;
    problems := [];
    for f := 0 to |conn.db.forecasts|
      invariant problems == [] <==> forall k: nat | k < f :: ForecastClean(conn.db, k)
    {
      problems := Report(problems, ForecastClean(conn.db, f), ForecastDiffers);
    }
  }

  method EachTicket(conn: Connection) returns (problems: seq<Problem>)
    ensures problems == [] <==> TicketsClean(conn.db) && AllFillsClean(conn.db)
  {
    hide TicketClean, FillsClean;
    problems := [];
    for k := 0 to |conn.db.tickets|
      invariant problems == [] <==>
                forall j: nat | j < k :: TicketClean(conn.db, j) && FillsClean(conn.db, conn.db.tickets[j].body)
    {
      problems := Report(problems, TicketClean(conn.db, k), TicketDiffers);
      problems := Report(problems, FillsClean(conn.db, conn.db.tickets[k].body), FillsDiffer);
    }
  }

  /** THE AUDIT reports nothing exactly when every immutability trigger of the schema is present and the
      ledger is clean. */
  method VerifyLedger(conn: Connection, expected: set<string>, present: set<string>) returns (problems: seq<Problem>)
    ensures problems == [] <==> expected <= present && AuditClean(conn.db)
  {
    hide ArtifactsClean, ForeignKeys, OneActive, CohortsClean, CashAllClean, ForecastsClean, TicketsClean,
         AllFillsClean, DecisionsClean;
    problems := Report([], expected <= present, TriggerMissing);
    problems := Report(problems, ArtifactsClean(conn.db), ArtifactDiffers);
    problems := Report(problems, ForeignKeys(conn.db), ForeignKeyViolation);
    problems := Report(problems, OneActive(conn.db), ManyActiveCohorts);
    var cohorts := EachCohort(conn);
    var portfolios := EachPortfolio(conn);
    var forecasts := EachForecast(conn);
    var tickets := EachTicket(conn);
    problems := problems + cohorts + portfolios + forecasts + tickets;
    problems := Report(problems, DecisionsClean(conn.db), DecisionDiffers);
  }
}
