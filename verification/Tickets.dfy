/** Paper tickets and entry decisions, per portfolio (src/predict_agent/tickets.py). */
module Tickets {
  import opened Prelude
  import opened Sums
  import opened Fills
  import opened PolicyParams
  import opened Schema
  import opened Cash

  datatype Draft = Draft(
    portfolio: PortfolioId,
    forecast: nat,
    snapshot: nat,
    condition: string,
    side: Side,
    fills: seq<Fill>,
    fee: real,
    policy: Digest,
    rulesHash: string)

  predicate GoodFill(f: Fill) { 0.0 < f.price < 1.0 && f.shares > 0.0 }

  /** Shares and total cost of a draft, unless it is malformed. */
  function Totals(draft: Draft): Option<(real, real)> {
    if draft.fills == [] || draft.fee < 0.0 || (exists f | f in draft.fills :: !GoodFill(f)) then None
    else Some((SumOf(draft.fills, FillShares()), SumOf(draft.fills, FillNotional()) + draft.fee))
  }

  method TicketTotals(draft: Draft) returns (totals: Option<(real, real)>)
    ensures totals == Totals(draft)
  {
    if draft.fills == [] || draft.fee < 0.0 {
      return None;
    }
    var shares, notional := 0.0, 0.0;
    for i := 0 to |draft.fills|
      invariant shares == SumOf(draft.fills[..i], FillShares())
      invariant notional == SumOf(draft.fills[..i], FillNotional())
      invariant forall k | 0 <= k < i :: GoodFill(draft.fills[k])
    {
      var fill := draft.fills[i];
      if !GoodFill(fill) {
        return None;
      }
      SumPrefix(draft.fills, i, FillShares());
      SumPrefix(draft.fills, i, FillNotional());
      shares := shares + FillShares()(fill);
      notional := notional + FillNotional()(fill);
    }
    assert draft.fills[..|draft.fills|] == draft.fills;
    totals := Some((shares, notional + draft.fee));
  }

  predicate PortfolioKnown(t: Tables, portfolio: PortfolioId) {
    portfolio in t.portfolios && t.portfolios[portfolio].cohort in t.cohorts
  }

  predicate EntryOfCohort(t: Tables, forecast: nat, portfolio: PortfolioId)
    requires portfolio in t.portfolios
  {
    forecast < |t.forecasts| && t.forecasts[forecast].body.kind == Entry
    && t.forecasts[forecast].body.cohort == t.portfolios[portfolio].cohort
  }

  function SideSnapshot(t: Tables, forecast: nat, side: Side): Option<nat> {
    if forecast !in t.baselines || t.baselines[forecast].NoTimelyBaseline? then None
    else Some(if side == YES then t.baselines[forecast].yes else t.baselines[forecast].no)
  }

  /** UNIQUE (portfolio_id, condition_id) and UNIQUE (portfolio_id, forecast_id). */
  predicate TakenInPortfolio(t: Tables, draft: Draft) {
    exists row | row in t.tickets ::
      && row.body.portfolio == draft.portfolio
      && (row.body.condition == draft.condition || row.body.forecast == draft.forecast)
  }

  function TicketBodyOf(draft: Draft, shares: real, cost: real, now: int): TicketBody {
    TicketBody(draft.portfolio, draft.forecast, draft.snapshot, draft.condition, draft.side, shares, draft.fills,
               draft.fee, cost, draft.policy, draft.rulesHash, now)
  }

  /** Why a draft is refused before anything is written, if it is. */
  function DraftError(t: Tables, draft: Draft): Option<LedgerError> {
    if Totals(draft).None? then Some(InvalidDraft)
    else if !PortfolioKnown(t, draft.portfolio) then Some(UnknownPortfolio)
    else
      var portfolio := t.portfolios[draft.portfolio];
      if t.cohorts[portfolio.cohort].status != ActiveCohort then Some(CohortNotActive)
      else if draft.policy != portfolio.policy then Some(PolicyDiffers)
      else if !EntryOfCohort(t, draft.forecast, draft.portfolio)
              || t.forecasts[draft.forecast].body.condition != draft.condition
              || t.forecasts[draft.forecast].body.abstained then Some(BadForecast)
      else if t.forecasts[draft.forecast].body.rulesHash != draft.rulesHash then Some(RulesDiffer)
      else if (draft.portfolio, draft.forecast) in t.decisions then Some(AlreadyDecided)
      else if SideSnapshot(t, draft.forecast, draft.side) != Some(draft.snapshot) then Some(WrongSnapshot)
      else if TakenInPortfolio(t, draft) then Some(AlreadyTradedMarket)
      else None
  }

  function TicketInserted(t: Tables, body: TicketBody): Tables {
    t.(tickets := t.tickets + [Ticket(body, OpenTicket, TicketHash(body))])
  }

  function DecisionInserted(t: Tables, portfolio: PortfolioId, forecast: nat, row: DecisionRow): Tables {
    t.(decisions := t.decisions[(portfolio, forecast) := row])
  }

  /** The ticket, its debit and its TRADED decision, all or nothing. */
  function TicketOpened(t: Tables, draft: Draft, now: int): Result<Tables, LedgerError> {
    match DraftError(t, draft)
    case Some(error) => Err(error)
    case None =>
      var (shares, cost) := Totals(draft).value;
      var inserted := TicketInserted(t, TicketBodyOf(draft, shares, cost, now));
      match EntryAppended(inserted, draft.portfolio, Debit, cost, Some(|t.tickets|), now)
      case Err(error) => Err(error)
      case Ok(paid) =>
        Ok(DecisionInserted(paid, draft.portfolio, draft.forecast,
                            DecisionRow(draft.condition, Traded(|t.tickets|), now)))
  }

  /** The portfolio is of a cohort on file, and the forecast is an entry of that cohort. */
  predicate EntryForPortfolio(t: Tables, portfolio: PortfolioId, forecast: nat) {
    && portfolio in t.portfolios && t.portfolios[portfolio].cohort in t.cohorts && forecast < |t.forecasts|
    && t.forecasts[forecast].body.kind == Entry && t.forecasts[forecast].body.cohort == t.portfolios[portfolio].cohort
  }

  /** The draft trades the forecast as it is on file: its market, its rules, the portfolio's policy, and the book its
      baseline names for that side. */
  predicate TradesForecast(t: Tables, draft: Draft)
    requires EntryForPortfolio(t, draft.portfolio, draft.forecast)
  {
    var body := t.forecasts[draft.forecast].body;
    && body.condition == draft.condition && !body.abstained && body.rulesHash == draft.rulesHash
    && draft.policy == t.portfolios[draft.portfolio].policy
    && draft.forecast in t.baselines && t.baselines[draft.forecast].Timely?
    && draft.snapshot == match draft.side case YES => t.baselines[draft.forecast].yes
                                          case NO => t.baselines[draft.forecast].no
  }

  /** A TICKET IS OPENED exactly for a well-formed draft in an active cohort that trades its forecast, in a portfolio
      that has neither decided on the forecast nor ever held a ticket on it or its market, and can pay. */
  lemma OpensIff(t: Tables, draft: Draft, now: int)
    requires forall e | e in t.cash :: e.ticket.Some? ==> e.ticket.value < |t.tickets|
    ensures TicketOpened(t, draft, now).Ok? <==>
            && draft.fills != [] && draft.fee >= 0.0
            && (forall f | f in draft.fills :: 0.0 < f.price < 1.0 && f.shares > 0.0)
            && EntryForPortfolio(t, draft.portfolio, draft.forecast) && TradesForecast(t, draft)
            && t.cohorts[t.portfolios[draft.portfolio].cohort].status == ActiveCohort
            && (draft.portfolio, draft.forecast) !in t.decisions
            && (forall row | row in t.tickets && row.body.portfolio == draft.portfolio ::
                  row.body.condition != draft.condition && row.body.forecast != draft.forecast)
            && 0.0 <= SumOf(draft.fills, FillNotional()) + draft.fee <= CashBalance(t, draft.portfolio)
  {
    if DraftError(t, draft).None? {
      var (shares, cost) := Totals(draft).value;
      var inserted := TicketInserted(t, TicketBodyOf(draft, shares, cost, now));
      AppendsIff(inserted, draft.portfolio, Debit, cost, Some(|t.tickets|), now);
    }
    hide FillNotional, FillShares, CashOf, EntryAppended;
  }

  /** WHAT OPENING WRITES: the ticket, its debit and its decision, and nothing else. */
  lemma OpeningWrites(t: Tables, draft: Draft, now: int)
    requires TicketOpened(t, draft, now).Ok?
    ensures var after, n := TicketOpened(t, draft, now).value, |t.tickets|;
            && |after.tickets| == n + 1 && t.tickets == after.tickets[..n] && after.tickets[n].status == OpenTicket
            && (var b := after.tickets[n].body;
                && b.portfolio == draft.portfolio && b.forecast == draft.forecast && b.snapshot == draft.snapshot
                && b.condition == draft.condition && b.side == draft.side && b.fills == draft.fills
                && b.fee == draft.fee && b.policy == draft.policy && b.rulesHash == draft.rulesHash
                && b.createdAt == now
                && b.shares == SumOf(draft.fills, FillShares())
                && b.cost == SumOf(draft.fills, FillNotional()) + draft.fee
                && |after.cash| == |t.cash| + 1 && t.cash == after.cash[..|t.cash|]
                && (var debit := after.cash[|t.cash|];
                    && debit.portfolio == draft.portfolio && debit.kind == Debit && debit.amount == b.cost
                    && debit.ticket == Some(n) && debit.at == now))
            && after.decisions ==
               t.decisions[(draft.portfolio, draft.forecast) := DecisionRow(draft.condition, Traded(n), now)]
            && after == t.(tickets := after.tickets, cash := after.cash, decisions := after.decisions)
  {
    assert Totals(draft).Some?;
    hide FillNotional, FillShares, CashBalance, BackingError, DraftError;
  }

  /** For a caller that holds the transaction: on an error it rolls back. */
  method OpenTicketLocked(conn: Connection, draft: Draft, now: int) returns (result: Result<nat, LedgerError>)
    modifies conn
    ensures match TicketOpened(old(conn.db), draft, now)
            case Ok(t) => conn.db == t && result == Ok(|old(conn.db).tickets|)
            case Err(error) => result == Err(error)
  {
    var totals := TicketTotals(draft);
    var error := DraftError(conn.db, draft);
    if error.Some? {
      return Err(error.value);
    }
    var (shares, cost) := totals.value;
    var ticket := |conn.db.tickets|;
    conn.db := TicketInserted(conn.db, TicketBodyOf(draft, shares, cost, now));
    var paid := AppendCashEntry(conn, draft.portfolio, Debit, cost, Some(ticket), now);
    if paid.Err? {
      return Err(paid.error);
    }
    conn.db := DecisionInserted(conn.db, draft.portfolio, draft.forecast,
                                DecisionRow(draft.condition, Traded(ticket), now));
    result := Ok(ticket);
  }

  /** A refusal is recorded once, for an entry forecast of the portfolio's cohort that has a baseline row. */
  function RefusalRecorded(t: Tables, portfolio: PortfolioId, forecast: nat, code: RefusalCode, now: int)
    : Result<Tables, LedgerError>
  {
    if !PortfolioKnown(t, portfolio) then Err(UnknownPortfolio)
    else if !EntryOfCohort(t, forecast, portfolio) then Err(BadForecast)
    else if (portfolio, forecast) in t.decisions then Err(AlreadyDecided)
    else if forecast !in t.baselines then Err(NoBaselineYet)
    else Ok(DecisionInserted(t, portfolio, forecast,
                             DecisionRow(t.forecasts[forecast].body.condition, RefusedFor(code), now)))
  }

  /** A REFUSAL IS RECORDED exactly once, for an entry forecast of the portfolio's cohort that has a baseline row. */
  lemma RefusesIff(t: Tables, portfolio: PortfolioId, forecast: nat, code: RefusalCode, now: int)
    ensures RefusalRecorded(t, portfolio, forecast, code, now).Ok? <==>
            && EntryForPortfolio(t, portfolio, forecast) && (portfolio, forecast) !in t.decisions
            && forecast in t.baselines
    ensures RefusalRecorded(t, portfolio, forecast, code, now).Ok? ==>
              RefusalRecorded(t, portfolio, forecast, code, now).value ==
              t.(decisions := t.decisions[(portfolio, forecast) :=
                                            DecisionRow(t.forecasts[forecast].body.condition, RefusedFor(code), now)])
  {
  }

  method RecordRefusalLocked(conn: Connection, portfolio: PortfolioId, forecast: nat, code: RefusalCode, now: int)
    returns (result: Result<(), LedgerError>)
    modifies conn
    ensures match RefusalRecorded(old(conn.db), portfolio, forecast, code, now)
            case Ok(t) => conn.db == t && result == Ok(())
            case Err(error) => conn.db == old(conn.db) && result == Err(error)
  {
    if !PortfolioKnown(conn.db, portfolio) {
      return Err(UnknownPortfolio);
    }
    if !EntryOfCohort(conn.db, forecast, portfolio) {
      return Err(BadForecast);
    }
    if (portfolio, forecast) in conn.db.decisions {
      return Err(AlreadyDecided);
    }
    if forecast !in conn.db.baselines {
      return Err(NoBaselineYet);
    }
    var condition := conn.db.forecasts[forecast].body.condition;
    conn.db := DecisionInserted(conn.db, portfolio, forecast, DecisionRow(condition, RefusedFor(code), now));
    result := Ok(());
  }

  // ---------- open cost and equity ----------

  predicate IsOpenIn(row: Ticket, portfolio: PortfolioId) {
    row.body.portfolio == portfolio && row.status == OpenTicket
  }

  /** What a ticket adds to its portfolio's open cost. */
  function OpenCostOf(row: Ticket, portfolio: PortfolioId): real {
    if IsOpenIn(row, portfolio) then row.body.cost else 0.0
  }

  function OpenCostIn(portfolio: PortfolioId): Ticket -> real {
    (row: Ticket) => OpenCostOf(row, portfolio)
  }

  function OpenCost(t: Tables, portfolio: PortfolioId): real {
    SumOf(t.tickets, OpenCostIn(portfolio))
  }

  method ReadOpenCost(conn: Connection, portfolio: PortfolioId) returns (total: real)
    ensures total == OpenCost(conn.db, portfolio)
  {
    var rows := conn.db.tickets;
    total := 0.0;
    for i := 0 to |rows|
      invariant total == SumOf(rows[..i], OpenCostIn(portfolio))
    {
      SumPrefix(rows, i, OpenCostIn(portfolio));
      if IsOpenIn(rows[i], portfolio) {
        total := total + rows[i].body.cost;
      }
    }
    assert rows[..|rows|] == rows;
  }

  function Equity(t: Tables, portfolio: PortfolioId): real {
    CashBalance(t, portfolio) + OpenCost(t, portfolio)
  }

  /** Opening a ticket moves cash into open cost and leaves equity as it was. */
  lemma OpeningKeepsEquity(t: Tables, draft: Draft, now: int)
    requires TicketOpened(t, draft, now).Ok?
    ensures Equity(TicketOpened(t, draft, now).value, draft.portfolio) == Equity(t, draft.portfolio)
    ensures CashBalance(TicketOpened(t, draft, now).value, draft.portfolio) ==
            CashBalance(t, draft.portfolio) - Totals(draft).value.1 >= 0.0
  {
    var after := TicketOpened(t, draft, now).value;
    var row := after.tickets[|t.tickets|];
    var debit := after.cash[|t.cash|];
    CashOfSnoc(t.cash, debit, draft.portfolio);
    SumSnoc(CashOf(t.cash, draft.portfolio), debit, SignedAmount());
    SumSnoc(t.tickets, row, OpenCostIn(draft.portfolio));
  }
}
