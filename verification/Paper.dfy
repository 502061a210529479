/** Paper trading (src/predict_agent/paper.py): one portfolio's decision on one forecast, in one
    transaction, from inputs read inside it. */
module Paper {
  import opened Prelude
  import opened Sums
  import opened PolicyParams
  import opened Policy
  import opened Settlement
  import opened Schema
  import opened Cash
  import opened Tickets

  // ---------- inputs ----------

  /** What an OPEN ticket of the portfolio adds to an exposure; only tickets on listed markets are joined. */
  function ExposedIn(t: Tables, portfolio: PortfolioId, wanted: Ticket -> bool): Ticket -> real {
    (row: Ticket) =>
      if IsOpenIn(row, portfolio) && row.body.condition in t.markets && wanted(row) then row.body.cost else 0.0
  }

  function Anywhere(): Ticket -> bool { (row: Ticket) => true }
  function OnMarket(condition: string): Ticket -> bool { (row: Ticket) => row.body.condition == condition }
  function OnEvent(t: Tables, event: string): Ticket -> bool {
    (row: Ticket) => row.body.condition in t.markets && t.markets[row.body.condition].event == event
  }
  function OnCategory(t: Tables, category: string): Ticket -> bool {
    (row: Ticket) => row.body.condition in t.markets && t.markets[row.body.condition].category == category
  }

  function Exposed(t: Tables, portfolio: PortfolioId, wanted: Ticket -> bool): real {
    SumOf(t.tickets, ExposedIn(t, portfolio, wanted))
  }

  function ExposureOf(t: Tables, portfolio: PortfolioId, condition: string, event: string, category: string): Exposure {
    Exposure(Exposed(t, portfolio, OnMarket(condition)), Exposed(t, portfolio, OnEvent(t, event)),
             Exposed(t, portfolio, OnCategory(t, category)), Exposed(t, portfolio, Anywhere()))
  }

  method ReadExposure(conn: Connection, portfolio: PortfolioId, condition: string, event: string, category: string)
    returns (exposure: Exposure)
    ensures exposure == ExposureOf(conn.db, portfolio, condition, event, category)
  {
    var t := conn.db;
    var market, inEvent, inCategory, total := 0.0, 0.0, 0.0, 0.0;
    for i := 0 to |t.tickets|
      invariant market == SumOf(t.tickets[..i], ExposedIn(t, portfolio, OnMarket(condition)))
      invariant inEvent == SumOf(t.tickets[..i], ExposedIn(t, portfolio, OnEvent(t, event)))
      invariant inCategory == SumOf(t.tickets[..i], ExposedIn(t, portfolio, OnCategory(t, category)))
      invariant total == SumOf(t.tickets[..i], ExposedIn(t, portfolio, Anywhere()))
    {
      SumPrefix(t.tickets, i, ExposedIn(t, portfolio, OnMarket(condition)));
      SumPrefix(t.tickets, i, ExposedIn(t, portfolio, OnEvent(t, event)));
      SumPrefix(t.tickets, i, ExposedIn(t, portfolio, OnCategory(t, category)));
      SumPrefix(t.tickets, i, ExposedIn(t, portfolio, Anywhere()));
      var row := t.tickets[i];
      if IsOpenIn(row, portfolio) && row.body.condition in t.markets {
        var cost := row.body.cost;
        total := total + cost;
        if row.body.condition == condition {
          market := market + cost;
        }
        if t.markets[row.body.condition].event == event {
          inEvent := inEvent + cost;
        }
        if t.markets[row.body.condition].category == category {
          inCategory := inCategory + cost;
        }
      }
    }
    assert t.tickets[..|t.tickets|] == t.tickets;
    exposure := Exposure(market, inEvent, inCategory, total);
  }

  function SideBookOf(s: Snapshot, id: nat, side: Side): SideBook {
    SideBook(side, id, s.fetchedAt, s.asks, s.tickSize, s.minOrderSize, s.feesEnabled, s.feeSchedule)
  }

  function BooksOf(t: Tables, forecast: nat): Result<map<Side, SideBook>, LedgerError> {
    if forecast !in t.baselines || t.baselines[forecast].NoTimelyBaseline? then Ok(map[])
    else
      var b := t.baselines[forecast];
      if b.yes >= |t.snapshots| || b.no >= |t.snapshots| then Err(UnknownSnapshot)
      else Ok(map[YES := SideBookOf(t.snapshots[b.yes], b.yes, YES), NO := SideBookOf(t.snapshots[b.no], b.no, NO)])
  }

  predicate ResolutionHasStarted(t: Tables, condition: string) {
    exists o | o in t.observations :: o.condition == condition && !IsOpenStatus(o.status)
  }

  predicate HasTraded(t: Tables, portfolio: PortfolioId, condition: string) {
    exists row | row in t.tickets :: row.body.portfolio == portfolio && row.body.condition == condition
  }

  function ViewOf(t: Tables, b: ForecastBody): ForecastView {
    ForecastView(b.abstained, b.bands, b.confidence, b.rulesHash,
                 if (b.condition, b.rulesHash) in t.rules then t.rules[(b.condition, b.rulesHash)] else None)
  }

  function InputsOf(t: Tables, portfolio: PortfolioId, forecast: nat, books: map<Side, SideBook>,
                    now: int): PolicyInputs
    requires forecast < |t.forecasts| && t.forecasts[forecast].body.condition in t.markets
  {
    var b := t.forecasts[forecast].body;
    var market := t.markets[b.condition];
    PolicyInputs(ViewOf(t, b), market.rulesHash, b.condition in t.discovered, ResolutionHasStarted(t, b.condition),
                 HasTraded(t, portfolio, b.condition), books, Equity(t, portfolio), CashBalance(t, portfolio),
                 ExposureOf(t, portfolio, b.condition, market.event, market.category), now)
  }

  function LoadInputs(t: Tables, portfolio: PortfolioId, forecast: nat, now: int): Result<PolicyInputs, LedgerError> {
    if forecast >= |t.forecasts| then Err(UnknownForecast)
    else if t.forecasts[forecast].body.condition !in t.markets then Err(UnknownMarket)
    else match BooksOf(t, forecast)
      case Err(error) => Err(error)
      case Ok(books) =>
        var inputs := InputsOf(t, portfolio, forecast, books, now);
        if !ValidForecastView(inputs.forecast) then Err(InvalidForecast) else Ok(inputs)
  }

  /** The frozen policy a digest names, re-validated on every read. */
  function PolicyOf(t: Tables, digest: Digest): (r: Result<Params, LedgerError>)
    ensures r.Ok? ==> ValidParams(r.value)
  {
    if digest !in t.artifacts || Sha(t.artifacts[digest].content) != digest then Err(MissingArtifact)
    else if t.artifacts[digest].kind != PolicyArtifact then Err(UnreadablePolicy)
    else match t.artifacts[digest].content
      case Text(_) => Err(UnreadablePolicy)
      case PolicyRecord(params) => if ValidParams(params) then Ok(params) else Err(UnreadablePolicy)
  }

  /** A fraction of equity that may be staked or exposed. */
  predicate Share(x: real) { 0.0 < x && x <= 1.0 }

  /** WHICH POLICY IS READ: one stored under its own digest as a policy, with every parameter in its range. */
  lemma PolicyReadIff(t: Tables, digest: Digest, p: Params)
    ensures PolicyOf(t, digest) == Ok(p) <==>
            && digest == Sha(PolicyRecord(p)) && digest in t.artifacts
            && t.artifacts[digest] == Artifact(PolicyArtifact, PolicyRecord(p))
            && p.startingBankroll > 0.0 && 0.0 < p.minEdge < 1.0 && 0.0 <= p.maxSlippage < 1.0
            && Share(p.kellyFraction) && Share(p.capMarket) && Share(p.capEvent) && Share(p.capCategory)
            && Share(p.capTotalOpen) && p.minHoursToClose >= 1 && p.maxBookAgeSeconds >= 1
  {
  }

  /** The book of one side as its snapshot recorded it. */
  ghost predicate BookIs(t: Tables, book: SideBook, id: nat, side: Side) {
    && id < |t.snapshots| && book.side == side && book.snapshotId == id
    && (var s := t.snapshots[id];
        && book.fetchedAt == s.fetchedAt && book.asks == s.asks && book.tickSize == s.tickSize
        && book.minOrderSize == s.minOrderSize && book.feesEnabled == s.feesEnabled
        && book.feeSchedule == s.feeSchedule)
  }

  /** WHAT A DECISION READS: the forecast's own columns and rules, the market's current rules, whether the market is in
      the latest discovery, has a report that is no longer open, or was ever traded in this portfolio, both books of a
      timely baseline or none, the portfolio's cash and open cost, and its exposures. */
  lemma DecisionReads(t: Tables, p: PortfolioId, f: nat, now: int)
    requires LoadInputs(t, p, f, now).Ok?
    ensures f < |t.forecasts| && t.forecasts[f].body.condition in t.markets
    ensures var inputs, b := LoadInputs(t, p, f, now).value, t.forecasts[f].body;
            var market, v := t.markets[b.condition], inputs.forecast;
            && v.abstained == b.abstained && v.bands == b.bands && v.confidence == b.confidence
            && v.rulesHash == b.rulesHash && inputs.currentRulesHash == market.rulesHash && inputs.now == now
            && v.endDate ==
               (if (b.condition, b.rulesHash) in t.rules then t.rules[(b.condition, b.rulesHash)] else None)
            && (inputs.eligible <==> b.condition in t.discovered)
            && (inputs.resolutionStarted <==>
                  exists o | o in t.observations && o.condition == b.condition ::
                    o.status != Initialized && o.status != Posed && o.status != Active)
            && (inputs.alreadyTraded <==>
                  exists row | row in t.tickets :: row.body.portfolio == p && row.body.condition == b.condition)
            && (f in t.baselines && t.baselines[f].Timely? ==>
                  && inputs.books.Keys == {YES, NO} && YES in inputs.books && NO in inputs.books
                  && BookIs(t, inputs.books[YES], t.baselines[f].yes, YES)
                  && BookIs(t, inputs.books[NO], t.baselines[f].no, NO))
            && (f !in t.baselines || t.baselines[f].NoTimelyBaseline? ==> inputs.books == map[])
            && inputs.availableCash == CashBalance(t, p) && inputs.equity == CashBalance(t, p) + OpenCost(t, p)
            && inputs.exposure == ExposureOf(t, p, b.condition, market.event, market.category)
  {
    hide CashBalance, OpenCost, ExposureOf;
  }

  /** Only open tickets of the portfolio count, at their cost, and only on listed markets. */
  lemma ExposureCounts(t: Tables, p: PortfolioId, row: Ticket, condition: string, event: string, category: string)
    ensures var open := row.body.portfolio == p && row.status == OpenTicket && row.body.condition in t.markets;
            var cost := row.body.cost;
            && ExposedIn(t, p, Anywhere())(row) == (if open then cost else 0.0)
            && ExposedIn(t, p, OnMarket(condition))(row)
               == (if open && row.body.condition == condition then cost else 0.0)
            && ExposedIn(t, p, OnEvent(t, event))(row) ==
               (if open && t.markets[row.body.condition].event == event then cost else 0.0)
            && ExposedIn(t, p, OnCategory(t, category))(row) ==
               (if open && t.markets[row.body.condition].category == category then cost else 0.0)
            && OpenCostIn(p)(row) == (if row.body.portfolio == p && row.status == OpenTicket then cost else 0.0)
  {
  }

  // ---------- the decision ----------

  datatype DecisionResult = Skipped | TradedAs(ticket: nat) | RefusedAs(code: RefusalCode)

  function DraftOf(t: Tables, portfolio: PortfolioId, forecast: nat, trade: Decision): Draft
    requires trade.Trade? && portfolio in t.portfolios && forecast < |t.forecasts|
  {
    var b := t.forecasts[forecast].body;
    Draft(portfolio, forecast, trade.snapshotId, b.condition, trade.side, trade.walk.fills, trade.walk.fee,
          t.portfolios[portfolio].policy, b.rulesHash)
  }

  function RefusedWith(t: Tables, portfolio: PortfolioId, forecast: nat, code: RefusalCode, now: int)
    : Result<(Tables, DecisionResult), LedgerError>
  {
    match RefusalRecorded(t, portfolio, forecast, code, now)
    case Err(error) => Err(error)
    case Ok(after) => Ok((after, RefusedAs(code)))
  }

  function TradeOrRefuse(t: Tables, portfolio: PortfolioId, forecast: nat, decision: Decision, now: int)
    : Result<(Tables, DecisionResult), LedgerError>
    requires portfolio in t.portfolios && forecast < |t.forecasts|
  {
    match decision
    case Refuse(reason) => RefusedWith(t, portfolio, forecast, ByPolicy(reason), now)
    case Trade(_, _, _, _, _, _) =>
      match TicketOpened(t, DraftOf(t, portfolio, forecast, decision), now)
      case Err(error) => Err(error)
      case Ok(after) => Ok((after, TradedAs(|t.tickets|)))
  }

  /** The committed outcome of one decision transaction; an error commits nothing. */
  function Decided(t: Tables, portfolio: PortfolioId, forecast: nat, now: int)
    : Result<(Tables, DecisionResult), LedgerError>
  {
    if !PortfolioKnown(t, portfolio) then Err(UnknownPortfolio)
    else if (portfolio, forecast) in t.decisions then Ok((t, Skipped))
    else if t.cohorts[t.portfolios[portfolio].cohort].status != ActiveCohort
    then RefusedWith(t, portfolio, forecast, CohortClosed, now)
    else match PolicyOf(t, t.portfolios[portfolio].policy)
      case Err(error) => Err(error)
      case Ok(params) =>
        match LoadInputs(t, portfolio, forecast, now)
        case Err(error) => Err(error)
        case Ok(inputs) => TradeOrRefuse(t, portfolio, forecast, Decide(inputs, params), now)
  }

  method DecidePortfolio(conn: Connection, portfolio: PortfolioId, forecast: nat, now: int)
    returns (result: Result<DecisionResult, LedgerError>)
    modifies conn
    ensures match Decided(old(conn.db), portfolio, forecast, now)
            case Ok((t, outcome)) => conn.db == t && result == Ok(outcome)
            case Err(error) => conn.db == old(conn.db) && result == Err(error)
  {
    if !PortfolioKnown(conn.db, portfolio) {
      return Err(UnknownPortfolio);
    }
    if (portfolio, forecast) in conn.db.decisions {
      return Ok(Skipped);
    }
    if conn.db.cohorts[conn.db.portfolios[portfolio].cohort].status != ActiveCohort {
      result := RecordRefusal(conn, portfolio, forecast, CohortClosed, now);
      return;
    }
    var params := PolicyOf(conn.db, conn.db.portfolios[portfolio].policy);
    if params.Err? {
      return Err(params.error);
    }
    var inputs := LoadInputs(conn.db, portfolio, forecast, now);
    if inputs.Err? {
      return Err(inputs.error);
    }
    var decision := Decide(inputs.value, params.value);
    match decision {
      case Refuse(reason) =>
        result := RecordRefusal(conn, portfolio, forecast, ByPolicy(reason), now);
      case Trade(_, _, _, _, _, _) =>
        var began := conn.db;
        var opening := OpenTicketLocked(conn, DraftOf(conn.db, portfolio, forecast, decision), now);
        match opening {
          case Err(error) =>
            conn.db := began;
            result := Err(error);
          case Ok(ticket) =>
            result := Ok(TradedAs(ticket));
        }
    }
  }

  method RecordRefusal(conn: Connection, portfolio: PortfolioId, forecast: nat, code: RefusalCode, now: int)
    returns (result: Result<DecisionResult, LedgerError>)
    modifies conn
    ensures match RefusedWith(old(conn.db), portfolio, forecast, code, now)
            case Ok((t, outcome)) => conn.db == t && result == Ok(outcome)
            case Err(error) => conn.db == old(conn.db) && result == Err(error)
  {
    var recorded := RecordRefusalLocked(conn, portfolio, forecast, code, now);
    result := if recorded.Err? then Err(recorded.error) else Ok(RefusedAs(code));
  }
}
