/** No run of trades and settlements ruins a portfolio whose policy keeps part of its equity in cash,
    and every opening leaves each exposure within its cap (src/predict_agent/policy.py:105-121). */
module NoRuin {
  import opened Prelude
  import opened Reals
  import opened Sums
  import opened PolicyParams
  import opened Policy
  import opened Schema
  import opened Cash
  import opened Cohorts
  import opened Forecasts
  import opened Tickets
  import opened Paper
  import opened Settling
  import opened Invariants
  import opened Steps
  import opened Reachability
  import opened TradeSteps
  import opened SettleSteps
  import opened CohortSteps
  import opened Ledger

  /** The portfolio's frozen policy never commits all of its equity. */
  predicate Prudent(t: Tables, p: PortfolioId) {
    && p in t.portfolios
    && PolicyOf(t, t.portfolios[p].policy).Ok?
    && PolicyOf(t, t.portfolios[p].policy).value.capTotalOpen < 1.0
  }

  ghost predicate Solvent(t: Tables) {
    forall p | Prudent(t, p) :: CashBalance(t, p) > 0.0
  }

  // ---------- exposure is open cost ----------

  lemma TicketListed(t: Tables, k: nat)
    requires Inv(t) && k < |t.tickets|
    ensures t.tickets[k].body.condition in t.markets
  {
    hide CohortsClean, CashAllClean, ForecastsClean, AllFillsClean, DecisionsClean;
    var b := t.tickets[k].body;
    assert TicketClean(t, k);
    assert t.forecasts[b.forecast] in t.forecasts;
    assert (b.condition, b.rulesHash) in t.rules;
  }

  /** Every open ticket is on a listed market, so the total exposure misses none. */
  lemma ExposedTotal(t: Tables, p: PortfolioId)
    requires Inv(t)
    ensures Exposed(t, p, Anywhere()) == OpenCost(t, p)
  {
    hide Inv;
    forall row | row in t.tickets
      ensures ExposedIn(t, p, Anywhere())(row) == OpenCostIn(p)(row)
    {
      var k: nat :| k < |t.tickets| && t.tickets[k] == row;
      TicketListed(t, k);
    }
    SumCongruent(t.tickets, ExposedIn(t, p, Anywhere()), OpenCostIn(p));
  }

  lemma OpenCostNonNegative(t: Tables, p: PortfolioId)
    requires Supported(t)
    ensures OpenCost(t, p) >= 0.0
  {
    forall row | row in t.tickets
      ensures OpenCostIn(p)(row) >= 0.0
    {
      var k: nat :| k < |t.tickets| && t.tickets[k] == row;
      assert t.tickets[k].body.cost >= 0.0;
    }
    SumNonNegative(t.tickets, OpenCostIn(p));
  }

  // ---------- one opening ----------

  lemma Conserved(cash: real, open: real, cap: real, cost: real)
    requires cash > 0.0 && open >= 0.0 && 0.0 < cap < 1.0
    requires open + cost <= cap * (cash + open)
    ensures cash - cost > 0.0
  {
    MulStrict(cap, 1.0, cash + open);
  }

  /** Money committed by an opening and every exposure it adds to. */
  lemma ExposedAfter(t: Tables, t': Tables, p: PortfolioId, row: Ticket, wanted: Ticket -> bool,
                     wanted': Ticket -> bool)
    requires t'.markets == t.markets && t'.tickets == t.tickets + [row]
    requires IsOpenIn(row, p) && row.body.condition in t.markets && wanted'(row)
    requires forall r | r in t.tickets :: wanted'(r) == wanted(r)
    ensures Exposed(t', p, wanted') == Exposed(t, p, wanted) + row.body.cost
  {
    SumSnoc(t.tickets, row, ExposedIn(t', p, wanted'));
    SumCongruent(t.tickets, ExposedIn(t', p, wanted'), ExposedIn(t, p, wanted));
  }

  /** Within every cap, measured after the fact. */
  ghost predicate CapsHold(t: Tables, p: PortfolioId, condition: string, params: Params) {
    && condition in t.markets
    && (var market := t.markets[condition];
        var e, equity := ExposureOf(t, p, condition, market.event, market.category), Equity(t, p);
        && e.market <= params.capMarket * equity
        && e.event <= params.capEvent * equity
        && e.category <= params.capCategory * equity
        && e.total <= params.capTotalOpen * equity
        && e.total == OpenCost(t, p))
  }

  lemma ExposureAfter(t: Tables, t': Tables, p: PortfolioId, row: Ticket)
    requires t'.markets == t.markets && t'.tickets == t.tickets + [row]
    requires IsOpenIn(row, p) && row.body.condition in t.markets
    ensures var market := t.markets[row.body.condition];
            var before := ExposureOf(t, p, row.body.condition, market.event, market.category);
            ExposureOf(t', p, row.body.condition, market.event, market.category) ==
            Exposure(before.market + row.body.cost, before.event + row.body.cost,
                     before.category + row.body.cost, before.total + row.body.cost)
  {
    var c := row.body.condition;
    var market := t.markets[c];
    ExposedAfter(t, t', p, row, OnMarket(c), OnMarket(c));
    ExposedAfter(t, t', p, row, OnEvent(t, market.event), OnEvent(t', market.event));
    ExposedAfter(t, t', p, row, OnCategory(t, market.category), OnCategory(t', market.category));
    ExposedAfter(t, t', p, row, Anywhere(), Anywhere());
  }

  /** A trade's cost, read off the tables it leaves. */
  lemma TradeEffect(t: Tables, p: PortfolioId, f: nat, now: int, params: Params, inputs: PolicyInputs)
    requires Inv(t) && Deciding(t, p, f, now, params, inputs) && Decide(inputs, params).Trade?
    requires TicketOpened(t, DraftOf(t, p, f, Decide(inputs, params)), now).Ok?
    ensures var d := Decide(inputs, params);
            var t' := TicketOpened(t, DraftOf(t, p, f, d), now).value;
            && WithinCaps(d.walk.Cost(), inputs, params)
            && t'.markets == t.markets && t'.portfolios == t.portfolios && t'.artifacts == t.artifacts
            && |t'.tickets| == |t.tickets| + 1 && t'.tickets == t.tickets + [t'.tickets[|t.tickets|]]
            && IsOpenIn(t'.tickets[|t.tickets|], p)
            && t'.tickets[|t.tickets|].body.condition == t.forecasts[f].body.condition
            && t'.tickets[|t.tickets|].body.cost == d.walk.Cost()
            && CashBalance(t', p) == CashBalance(t, p) - d.walk.Cost()
            && Equity(t', p) == Equity(t, p)
            && (forall q | q != p :: CashBalance(t', q) == CashBalance(t, q))
  {
    hide Inv;
    var d := Decide(inputs, params);
    var draft := DraftOf(t, p, f, d);
    TradedBook(t, p, f, now, params, inputs);
    TradeTotals(t, p, f, d, SideBookOf(t.snapshots[d.snapshotId], d.snapshotId, d.side), inputs, params);
    OpeningKeepsEquity(t, draft, now);
    var debit, row := TicketOpenedShape(t, draft, now);
    hide Decide, SoundTrade, Deciding, WithinCaps;
    forall q | q != p
      ensures CashBalance(TicketOpened(t, draft, now).value, q) == CashBalance(t, q)
    {
      CashOfSnoc(t.cash, debit, q);
      assert CashOf(t.cash, q) + [] == CashOf(t.cash, q);
    }
  }

  lemma InputsRead(t: Tables, p: PortfolioId, f: nat, now: int, params: Params, inputs: PolicyInputs)
    requires Deciding(t, p, f, now, params, inputs)
    ensures inputs.equity == Equity(t, p)
    ensures var c := t.forecasts[f].body.condition;
            c in t.markets && inputs.exposure == ExposureOf(t, p, c, t.markets[c].event, t.markets[c].category)
  {
    hide Exposed, Equity, CashBalance, BooksOf, ViewOf, ExposureOf;
  }

  lemma CapsAfter(t: Tables, p: PortfolioId, condition: string, inputs: PolicyInputs, params: Params, cost: real)
    requires WithinCaps(cost, inputs, params) && condition in t.markets && Equity(t, p) == inputs.equity
    requires ExposureOf(t, p, condition, t.markets[condition].event, t.markets[condition].category) ==
             Exposure(inputs.exposure.market + cost, inputs.exposure.event + cost,
                      inputs.exposure.category + cost, inputs.exposure.total + cost)
    requires Exposed(t, p, Anywhere()) == OpenCost(t, p)
    ensures CapsHold(t, p, condition, params)
  {
    hide Exposed, Equity, OpenCost;
  }

  /** AFTER EVERY TRADE each exposure of the traded market, its event, its category and the whole
      portfolio is within its cap of equity. */
  lemma TradeLeavesCaps(t: Tables, p: PortfolioId, f: nat, now: int, params: Params, inputs: PolicyInputs)
    requires Inv(t) && Deciding(t, p, f, now, params, inputs) && Decide(inputs, params).Trade?
    requires TicketOpened(t, DraftOf(t, p, f, Decide(inputs, params)), now).Ok?
    ensures CapsHold(TicketOpened(t, DraftOf(t, p, f, Decide(inputs, params)), now).value, p,
                     t.forecasts[f].body.condition, params)
  {
    hide Inv, Decide, TicketOpened, WithinCaps, CapsHold, Equity, CashBalance, OpenCost, Exposed, LoadInputs,
         ExposureOf;
    var t' := TicketOpened(t, DraftOf(t, p, f, Decide(inputs, params)), now).value;
    TradeEffect(t, p, f, now, params, inputs);
    TradedInv(t, p, f, now, params, inputs);
    InputsRead(t, p, f, now, params, inputs);
    ExposedTotal(t', p);
    ExposureAfter(t, t', p, t'.tickets[|t.tickets|]);
    CapsAfter(t', p, t.forecasts[f].body.condition, inputs, params, Decide(inputs, params).walk.Cost());
  }

  lemma TradeLeavesCash(t: Tables, p: PortfolioId, f: nat, now: int, params: Params, inputs: PolicyInputs, cost: real)
    requires Inv(t) && Deciding(t, p, f, now, params, inputs) && WithinCaps(cost, inputs, params)
    requires params.capTotalOpen < 1.0 && CashBalance(t, p) > 0.0
    ensures CashBalance(t, p) - cost > 0.0
  {
    hide Inv, AuditClean, Supported, LoadInputs, CashBalance, OpenCost, Exposed, PolicyOf, Gate;
    ExposedTotal(t, p);
    SupportedOf(t);
    OpenCostNonNegative(t, p);
    InputsRead(t, p, f, now, params, inputs);
    Conserved(CashBalance(t, p), OpenCost(t, p), params.capTotalOpen, cost);
  }

  lemma TradeKeepsSolvent(t: Tables, p: PortfolioId, f: nat, now: int, params: Params, inputs: PolicyInputs)
    requires Inv(t) && Solvent(t) && Deciding(t, p, f, now, params, inputs) && Decide(inputs, params).Trade?
    requires TicketOpened(t, DraftOf(t, p, f, Decide(inputs, params)), now).Ok?
    ensures Solvent(TicketOpened(t, DraftOf(t, p, f, Decide(inputs, params)), now).value)
  {
    hide Inv, Decide, TicketOpened, CashBalance, WithinCaps, LoadInputs;
    var t' := TicketOpened(t, DraftOf(t, p, f, Decide(inputs, params)), now).value;
    TradeEffect(t, p, f, now, params, inputs);
    forall q | Prudent(t', q)
      ensures CashBalance(t', q) > 0.0
    {
      assert Prudent(t, q);
      if q == p {
        TradeLeavesCash(t, p, f, now, params, inputs, Decide(inputs, params).walk.Cost());
      }
    }
  }

  lemma SupportedOf(t: Tables)
    requires Inv(t)
    ensures Supported(t) && AuditClean(t)
  {
  }

  // ---------- the other transactions ----------

  /** No portfolio, cash entry or policy differs. */
  ghost predicate Quiet(t: Tables, t': Tables) {
    && t'.portfolios == t.portfolios && t'.cash == t.cash
    && forall d | d in t.artifacts :: d in t'.artifacts && t'.artifacts[d] == t.artifacts[d]
  }

  lemma QuietStep(t: Tables, t': Tables)
    requires Inv(t) && Solvent(t) && Quiet(t, t')
    ensures Solvent(t')
  {
    hide Inv, CashBalance;
    forall p | Prudent(t', p)
      ensures CashBalance(t', p) > 0.0
    {
      PolicyStored(t, p);
      assert Prudent(t, p);
      SameCash(t, t', p);
    }
  }

  lemma SameCash(t: Tables, t': Tables, p: PortfolioId)
    requires CashOf(t'.cash, p) == CashOf(t.cash, p)
    ensures CashBalance(t', p) == CashBalance(t, p)
  {
  }

  lemma PolicyStored(t: Tables, p: PortfolioId)
    requires Inv(t) && p in t.portfolios
    ensures t.portfolios[p].policy in t.artifacts
  {
    hide CashAllClean, ForecastsClean, TicketsClean, AllFillsClean, DecisionsClean, Supported;
    assert CohortClean(t, t.portfolios[p].cohort);
    assert PortfolioRowClean(t, p, t.portfolios[p].cohort);
  }

  lemma CreditSolvent(t: Tables, k: nat, s: SettlementRow, credit: CashEntry)
    requires Solvent(t) && Resolves(t, k, s, credit)
    ensures Solvent(SettledWith(t, k, s, credit))
  {
    hide SettlementClean;
    var t' := SettledWith(t, k, s, credit);
    forall p | Prudent(t', p)
      ensures CashBalance(t', p) > 0.0
    {
      assert Prudent(t, p);
      CashOfSnoc(t.cash, credit, p);
      SumSnoc(CashOf(t.cash, p), credit, SignedAmount());
      assert CashOf(t.cash, p) + [] == CashOf(t.cash, p);
    }
  }

  lemma SettleKeepsSolvent(t: Tables, k: nat, now: int)
    requires Inv(t) && Solvent(t) && k < |t.tickets| && TicketSettled(t, k, now).Ok?
    ensures Solvent(TicketSettled(t, k, now).value.0)
  {
    hide Inv, TicketSettled, Solvent, AuditClean, Resolves;
    SupportedOf(t);
    if TicketSettled(t, k, now).value.1 == SettledNow {
      var s, credit := SettledShape(t, k, now);
      CreditSolvent(t, k, s, credit);
    } else {
      UnsettledSame(t, k, now);
    }
  }

  /** A portfolio just funded holds its bankroll; the others hold what they did. */
  lemma {:induction false} FundedSolvent(t: Tables, c: CohortId, variants: seq<Variant>, bankroll: real, now: int)
    requires Solvent(t) && bankroll > 0.0 && Funded(t, c, variants, bankroll, now).Ok?
    requires c in t.cohorts
    ensures Solvent(Funded(t, c, variants, bankroll, now).value)
    decreases |variants|
  {
    if variants != [] {
      var id := PortfolioHash(c, variants[0].name);
      var inserted := PortfolioInserted(t, c, variants[0], bankroll);
      var funding := NextEntry(inserted, id, Funding, bankroll, None, now);
      var t1 := FundedWith(t, c, variants[0], bankroll, funding);
      assert EntryAppended(inserted, id, Funding, bankroll, None, now) == Ok(t1);
      FundingSolvent(t, c, variants[0], bankroll, funding);
      FundedSolvent(t1, c, variants[1..], bankroll, now);
    }
  }

  lemma FundingSolvent(t: Tables, c: CohortId, v: Variant, bankroll: real, funding: CashEntry)
    requires Solvent(t) && bankroll > 0.0 && PortfolioHash(c, v.name) !in t.portfolios
    requires CashOf(t.cash, PortfolioHash(c, v.name)) == []
    requires funding.portfolio == PortfolioHash(c, v.name) && funding.kind == Funding && funding.amount == bankroll
    ensures Solvent(FundedWith(t, c, v, bankroll, funding))
  {
    var t' := FundedWith(t, c, v, bankroll, funding);
    forall p | Prudent(t', p)
      ensures CashBalance(t', p) > 0.0
    {
      CashOfSnoc(t.cash, funding, p);
      if p == funding.portfolio {
        SumSnoc([], funding, SignedAmount());
      } else {
        assert Prudent(t, p);
        assert CashOf(t.cash, p) + [] == CashOf(t.cash, p);
      }
    }
  }

  lemma OpenCohortSolvent(t: Tables, identity: Identity, bankroll: real, now: int)
    requires Inv(t) && Solvent(t) && CohortEnsured(t, identity, bankroll, now).Ok?
    ensures Solvent(CohortEnsured(t, identity, bankroll, now).value)
  {
    hide Inv, Solvent, Funded;
    if CohortHash(identity) !in t.cohorts {
      QuietStep(t, CohortInserted(t, identity, bankroll));
      FundedSolvent(CohortInserted(t, identity, bankroll), CohortHash(identity), identity.portfolios, bankroll, now);
    }
  }

  lemma DecideSolvent(t: Tables, p: PortfolioId, f: nat, now: int)
    requires Inv(t) && Solvent(t) && Decided(t, p, f, now).Ok?
    ensures Solvent(Decided(t, p, f, now).value.0)
  {
    hide Inv, Solvent, Decide, TicketOpened;
    if (p, f) !in t.decisions {
      if t.cohorts[t.portfolios[p].cohort].status != ActiveCohort {
        QuietStep(t, Decided(t, p, f, now).value.0);
      } else {
        var params := PolicyOf(t, t.portfolios[p].policy).value;
        var inputs := LoadInputs(t, p, f, now).value;
        match Decide(inputs, params) {
          case Refuse(reason) => QuietStep(t, Decided(t, p, f, now).value.0);
          case Trade(_, _, _, _, _, _) => TradeKeepsSolvent(t, p, f, now, params, inputs);
        }
      }
    }
  }

  lemma ArtifactQuiet(t: Tables, kind: ArtifactKind, content: Content)
    ensures Quiet(t, Apply(t, StoreArtifact(kind, content)))
  {
    hide CohortEnsured, Decided, TicketSettled, ForecastRecorded, BaselineAttached, MarkedNoTimely, AttemptStarted,
         AttemptFailed, MarketListed;
  }

  lemma ForecastQuiet(t: Tables, b: ForecastBody)
    ensures Quiet(t, Apply(t, Record(b)))
  {
    hide CohortEnsured, Decided, TicketSettled, BaselineAttached, MarkedNoTimely, ArtifactStored, AttemptStarted,
         AttemptFailed, MarketListed;
    hide Quiet, ForecastError;
    SameQuiet(t, Apply(t, Record(b)));
  }

  lemma AttachQuiet(t: Tables, f: nat, yes: nat, no: nat, now: int)
    ensures Quiet(t, Apply(t, Attach(f, yes, no, now)))
  {
    hide CohortEnsured, Decided, TicketSettled, ForecastRecorded, MarkedNoTimely, ArtifactStored, AttemptStarted,
         AttemptFailed, MarketListed;
    hide TimelySnapshot;
  }

  lemma MarkQuiet(t: Tables, f: nat, now: int)
    ensures Quiet(t, Apply(t, MarkMissing(f, now)))
  {
    hide CohortEnsured, Decided, TicketSettled, ForecastRecorded, BaselineAttached, ArtifactStored, AttemptStarted,
         AttemptFailed, MarketListed;
    hide Deadline, Undecided, Defaulted;
  }

  lemma RestQuiet(t: Tables, op: Op)
    requires op.ListMarket? || op.CompleteDiscovery? || op.StoreSnapshot? || op.Observe?
    ensures Quiet(t, Apply(t, op))
  {
    hide CohortEnsured, Decided, TicketSettled, ForecastRecorded, BaselineAttached, MarkedNoTimely, ArtifactStored,
         AttemptStarted, AttemptFailed, Quiet;
    SameQuiet(t, Apply(t, op));
  }

  lemma AttemptQuiet(t: Tables, op: Op)
    requires op.BeginAttempt? || op.CloseAttempt?
    ensures Quiet(t, Apply(t, op))
  {
    hide CohortEnsured, Decided, TicketSettled, ForecastRecorded, BaselineAttached, MarkedNoTimely, ArtifactStored,
         MarketListed, Quiet;
    SameQuiet(t, Apply(t, op));
  }

  lemma SameQuiet(t: Tables, t': Tables)
    requires t'.portfolios == t.portfolios && t'.cash == t.cash && t'.artifacts == t.artifacts
    ensures Quiet(t, t')
  {
  }

  lemma OtherSteps(t: Tables, op: Op)
    requires !op.OpenCohort? && !op.DecideOn? && !op.Settle?
    ensures Quiet(t, Apply(t, op))
  {
    hide Apply, Quiet;
    match op {
      case StoreArtifact(kind, content) => ArtifactQuiet(t, kind, content);
      case Record(body) => ForecastQuiet(t, body);
      case Attach(forecast, yes, no, now) => AttachQuiet(t, forecast, yes, no, now);
      case MarkMissing(forecast, now) => MarkQuiet(t, forecast, now);
      case BeginAttempt(_, _, _, _) => AttemptQuiet(t, op);
      case CloseAttempt(_, _, _, _) => AttemptQuiet(t, op);
      case _ => RestQuiet(t, op);
    }
  }

  lemma StepSolvent(t: Tables, op: Op)
    requires Inv(t) && Solvent(t)
    ensures Solvent(Apply(t, op))
  {
    hide Inv, Solvent, Decided, TicketSettled, CohortEnsured;
    match op {
      case OpenCohort(identity, bankroll, now) =>
        if CohortEnsured(t, identity, bankroll, now).Ok? {
          OpenCohortSolvent(t, identity, bankroll, now);
        }
      case DecideOn(portfolio, forecast, now) =>
        if Decided(t, portfolio, forecast, now).Ok? {
          DecideSolvent(t, portfolio, forecast, now);
        }
      case Settle(ticket, now) =>
        if ticket < |t.tickets| && TicketSettled(t, ticket, now).Ok? {
          SettleKeepsSolvent(t, ticket, now);
        }
      case _ =>
        OtherSteps(t, op);
        hide Apply;
        QuietStep(t, Apply(t, op));
    }
  }

  lemma {:induction false} RunSolvent(t: Tables, ops: seq<Op>)
    requires Inv(t) && Solvent(t) && forall op | op in ops :: Admissible(op)
    ensures Solvent(Run(t, ops))
    decreases |ops|
  {
    hide Inv, Solvent;
    if ops != [] {
      StepInv(t, ops[0]);
      StepSolvent(t, ops[0]);
      RunSolvent(Apply(t, ops[0]), ops[1..]);
    }
  }

  /** NO RUIN: after any run, a portfolio whose policy caps total open cost below its equity has cash. */
  lemma NeverRuined(ops: seq<Op>, p: PortfolioId)
    requires forall op | op in ops :: Admissible(op)
    requires Prudent(Run(EMPTY, ops), p)
    ensures CashBalance(Run(EMPTY, ops), p) > 0.0
  {
    hide Inv;
    EmptyInv();
    assert Solvent(EMPTY);
    RunSolvent(EMPTY, ops);
  }

  lemma TradedIsDeciding(t: Tables, p: PortfolioId, f: nat, now: int) returns (params: Params, inputs: PolicyInputs)
    requires Decided(t, p, f, now).Ok? && Decided(t, p, f, now).value.1.TradedAs?
    ensures Deciding(t, p, f, now, params, inputs) && Decide(inputs, params).Trade?
    ensures TicketOpened(t, DraftOf(t, p, f, Decide(inputs, params)), now) == Ok(Decided(t, p, f, now).value.0)
  {
    hide TicketOpened, Decide, RefusalRecorded;
    params := PolicyOf(t, t.portfolios[p].policy).value;
    inputs := LoadInputs(t, p, f, now).value;
  }

  /** In every run, every decision that opens a ticket leaves the portfolio within its policy's caps. */
  lemma EveryOpeningWithinCaps(ops: seq<Op>, p: PortfolioId, f: nat, now: int) returns (params: Params)
    requires forall op | op in ops :: Admissible(op)
    requires var r := Decided(Run(EMPTY, ops), p, f, now); r.Ok? && r.value.1.TradedAs?
    ensures var t := Run(EMPTY, ops);
            && p in t.portfolios && f < |t.forecasts| && PolicyOf(t, t.portfolios[p].policy) == Ok(params)
            && CapsHold(Decided(t, p, f, now).value.0, p, t.forecasts[f].body.condition, params)
  {
    hide Inv, Decided, Decide, TicketOpened, CapsHold, LoadInputs;
    EmptyInv();
    RunInv(EMPTY, ops);
    var t := Run(EMPTY, ops);
    var policy, inputs := TradedIsDeciding(t, p, f, now);
    params := policy;
    TradeLeavesCaps(t, p, f, now, params, inputs);
  }
}
