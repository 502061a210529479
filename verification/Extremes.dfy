/** Two runs from the empty ledger that mark where its guarantees end: a portfolio whose caps are all one
    spends its last cent, and a book that repeats a price leaves a ledger the auditor reports. */
module Extremes {
  import opened Prelude
  import opened Time
  import opened Sums
  import opened Fills
  import opened PolicyParams
  import opened Policy
  import opened Schema
  import opened Cash
  import opened Cohorts
  import opened Forecasts
  import opened Tickets
  import opened Paper
  import opened Settling
  import opened Invariants
  import opened Steps

  // ---------- one funded portfolio ----------

  const ALL_IN := Params(Bounds, 100.0, 0.05, Low, 1.0, 1.0, 1.0, 1.0, 1.0, 0.1, 1, 600)
  const POLICY := Sha(PolicyRecord(ALL_IN))
  const PROMPT := Sha(Text("prompt"))
  const INPUT := Sha(Text("input"))
  const TRANSCRIPT := Sha(Text("transcript"))
  const PRIMARY := Variant("primary", POLICY)
  const IDENTITY := Identity([PRIMARY], PROMPT, "model", Some(1.0), "v1", 60, 1)
  const COHORT := CohortHash(IDENTITY)
  const PORTFOLIO := PortfolioHash(COHORT, "primary")

  const ARTIFACTS := map[
    PROMPT := Artifact(PromptArtifact, Text("prompt")), POLICY := Artifact(PolicyArtifact, PolicyRecord(ALL_IN)),
    INPUT := Artifact(ResearchInput, Text("input")), TRANSCRIPT := Artifact(ToolTranscript, Text("transcript"))]
  const ACCOUNT := Portfolio(COHORT, "primary", POLICY, 100.0)

  const ARTIFACT_OPS := [
    StoreArtifact(PromptArtifact, Text("prompt")), StoreArtifact(PolicyArtifact, PolicyRecord(ALL_IN)),
    StoreArtifact(ResearchInput, Text("input")), StoreArtifact(ToolTranscript, Text("transcript"))]

  const FUNDING := CashEntry(PORTFOLIO, Funding, 100.0, None, 0, CashHash(PORTFOLIO, Funding, 100.0, None, 0, Genesis))
  const STOCKED := EMPTY.(artifacts := ARTIFACTS)
  const OPENED := STOCKED.(
    cohorts := map[COHORT := Cohort(IDENTITY, 100.0, 60, ActiveCohort)],
    portfolios := map[PORTFOLIO := ACCOUNT], cash := [FUNDING])

  lemma {:induction false} RunAppend(t: Tables, a: seq<Op>, b: seq<Op>)
    ensures Run(t, a + b) == Run(Run(t, a), b)
    decreases |a|
  {
    hide Apply;
    if a == [] {
      assert a + b == b;
    } else {
      assert (a + b)[1..] == a[1..] + b;
      RunAppend(Apply(t, a[0]), a[1..], b);
    }
  }

  lemma RunOne(t: Tables, op: Op)
    ensures Run(t, [op]) == Apply(t, op)
  {
    hide Apply;
    assert [op][1..] == [];
    assert Run(t, [op]) == Run(Apply(t, op), []);
  }

  lemma RunThree(t: Tables, a: Op, b: Op, c: Op)
    ensures Run(t, [a, b, c]) == Apply(Apply(Apply(t, a), b), c)
  {
    hide Apply;
    assert [a, b, c][1..] == [b, c] && [b, c][1..] == [c];
    assert Run(Apply(t, a), [b, c]) == Run(Apply(Apply(t, a), b), [c]);
    RunOne(Apply(Apply(t, a), b), c);
  }

  lemma RunFour(t: Tables, a: Op, b: Op, c: Op, d: Op)
    ensures Run(t, [a, b, c, d]) == Apply(Apply(Apply(Apply(t, a), b), c), d)
  {
    hide Apply;
    assert [a, b, c, d][1..] == [b, c, d];
    RunThree(Apply(t, a), b, c, d);
  }

  lemma Stored(t: Tables, kind: ArtifactKind, content: Content)
    requires Sha(content) !in t.artifacts
    ensures Apply(t, StoreArtifact(kind, content))
            == t.(artifacts := t.artifacts[Sha(content) := Artifact(kind, content)])
  {
    hide CohortEnsured, Decided, TicketSettled, ForecastRecorded, BaselineAttached, MarkedNoTimely;
  }

  lemma Stocked()
    ensures Run(EMPTY, ARTIFACT_OPS) == STOCKED
  {
    hide Apply;
    Stored(EMPTY, PromptArtifact, Text("prompt"));
    var t1 := EMPTY.(artifacts := map[PROMPT := Artifact(PromptArtifact, Text("prompt"))]);
    Stored(t1, PolicyArtifact, PolicyRecord(ALL_IN));
    var t2 := t1.(artifacts := t1.artifacts[POLICY := Artifact(PolicyArtifact, PolicyRecord(ALL_IN))]);
    Stored(t2, ResearchInput, Text("input"));
    var t3 := t2.(artifacts := t2.artifacts[INPUT := Artifact(ResearchInput, Text("input"))]);
    Stored(t3, ToolTranscript, Text("transcript"));
    assert t3.artifacts[TRANSCRIPT := Artifact(ToolTranscript, Text("transcript"))] == ARTIFACTS;
    RunFour(EMPTY, StoreArtifact(PromptArtifact, Text("prompt")), StoreArtifact(PolicyArtifact, PolicyRecord(ALL_IN)),
            StoreArtifact(ResearchInput, Text("input")), StoreArtifact(ToolTranscript, Text("transcript")));
  }

  lemma FundedPrimary(t: Tables)
    requires t.portfolios == map[] && t.cash == []
    ensures Funded(t, COHORT, [PRIMARY], 100.0, 0) == Ok(t.(portfolios := map[PORTFOLIO := ACCOUNT], cash := [FUNDING]))
  {
    var inserted := PortfolioInserted(t, COHORT, PRIMARY, 100.0);
    assert inserted.portfolios == map[PORTFOLIO := ACCOUNT];
    assert CashOf(inserted.cash, PORTFOLIO) == [] && Head([]) == Genesis;
    assert BackingError(inserted, PORTFOLIO, Funding, 100.0, None) == None;
    assert NextEntry(inserted, PORTFOLIO, Funding, 100.0, None, 0) == FUNDING;
    assert [] + [FUNDING] == [FUNDING];
    var paid := EntryAppended(inserted, PORTFOLIO, Funding, 100.0, None, 0);
    assert paid == Ok(inserted.(cash := [FUNDING]));
    assert [PRIMARY][1..] == [];
    assert Funded(paid.value, COHORT, [PRIMARY][1..], 100.0, 0) == Ok(paid.value);
  }

  lemma Ensured()
    ensures CohortEnsured(STOCKED, IDENTITY, 100.0, 0) == Ok(OPENED)
  {
    hide Funded;
    assert PRIMARY in IDENTITY.portfolios && VariantName("primary");
    hide VariantName;
    var inserted := CohortInserted(STOCKED, IDENTITY, 100.0);
    assert inserted.cohorts == map[COHORT := Cohort(IDENTITY, 100.0, 60, ActiveCohort)];
    FundedPrimary(inserted);
  }

  const OPENING := ARTIFACT_OPS + [OpenCohort(IDENTITY, 100.0, 0)]

  lemma Opened()
    ensures Run(EMPTY, OPENING) == OPENED
  {
    hide CohortEnsured;
    Stocked();
    Ensured();
    RunOne(STOCKED, OpenCohort(IDENTITY, 100.0, 0));
    assert Apply(STOCKED, OpenCohort(IDENTITY, 100.0, 0)) == OPENED;
    hide Apply, Run;
    RunAppend(EMPTY, ARTIFACT_OPS, [OpenCohort(IDENTITY, 100.0, 0)]);
  }

  // ---------- one market ----------

  function YesBook(m: string, asks: seq<AskLevel>): Snapshot { Snapshot(m, YES, 0, asks, 0.01, 1.0, false, None) }
  function NoBook(m: string): Snapshot { Snapshot(m, NO, 0, [], 0.01, 1.0, false, None) }

  function BodyFor(m: string, n: nat): ForecastBody {
    ForecastBody(n, COHORT, m, "rules", Entry, 0, false, None, Some(Bands(0.9, 0.9, 0.9)), Some(High), Some(0.5),
                 INPUT, TRANSCRIPT, 0.0)
  }

  /** List a market and store its books. */
  function Listing(m: string, asks: seq<AskLevel>): seq<Op> {
    [ListMarket(m, Market(m, m, "rules"), Some(DAY)), CompleteDiscovery({m}),
     StoreSnapshot(YesBook(m, asks)), StoreSnapshot(NoBook(m))]
  }

  /** Forecast it and attach the books. */
  function Forecasting(m: string, n: nat): seq<Op> {
    [BeginAttempt(COHORT, m, Entry, 0), Record(BodyFor(m, n)), Attach(n, 2 * n, 2 * n + 1, 0)]
  }

  predicate SetUp(t: Tables, n: nat) {
    && t.artifacts == ARTIFACTS && t.cohorts == OPENED.cohorts && t.portfolios == OPENED.portfolios
    && t.observations == []
    && |t.tickets| == n && |t.forecasts| == n && |t.attempts| == n && |t.snapshots| == 2 * n
  }

  /** Every row belongs to one of the markets listed so far. */
  predicate RowsWithin(t: Tables, n: nat) {
    && (forall f | f in t.baselines :: f < n) && (forall d | d in t.decisions :: d.1 < n)
    && (forall row | row in t.tickets ::
          row.body.condition in t.markets && row.body.forecast < n && IsOpenIn(row, PORTFOLIO))
    && (forall f | f in t.forecasts :: f.body.condition in t.markets)
    && (forall e | e in t.cash && e.ticket.Some? :: e.ticket.value < n)
    && (forall k | k in t.markets :: t.markets[k].event == k && t.markets[k].category == k)
    && (forall k | k in t.rules :: k.0 in t.markets)
  }

  /** The one portfolio after `n` such markets, with this much spent on open tickets. */
  ghost predicate OneAccount(t: Tables, n: nat, spent: real) {
    && SetUp(t, n) && RowsWithin(t, n)
    && OpenCost(t, PORTFOLIO) == spent && CashBalance(t, PORTFOLIO) == 100.0 - spent
  }

  function Listed(t: Tables, m: string, asks: seq<AskLevel>): Tables {
    t.(markets := t.markets[m := Market(m, m, "rules")], rules := t.rules[(m, "rules") := Some(DAY)], discovered := {m},
       snapshots := t.snapshots + [YesBook(m, asks), NoBook(m)])
  }

  function Forecasted(t: Tables, m: string, asks: seq<AskLevel>, n: nat): Tables {
    Listed(t, m, asks).(
      attempts := t.attempts + [Attempt(COHORT, m, Entry, 0, Succeeded(0, 0.0))],
      forecasts := t.forecasts + [Forecast(BodyFor(m, n), ForecastHash(BodyFor(m, n)))],
      baselines := t.baselines[n := Timely(2 * n, 2 * n + 1, 0)])
  }

  lemma ListedFor(t: Tables, m: string, asks: seq<AskLevel>)
    requires m !in t.markets && (m, "rules") !in t.rules
    ensures Run(t, Listing(m, asks)) == Listed(t, m, asks)
  {
    hide CohortEnsured, Decided, TicketSettled, ForecastRecorded, BaselineAttached, MarkedNoTimely, ArtifactStored,
         AttemptStarted, AttemptFailed, Run;
    var ops := Listing(m, asks);
    RunFour(t, ops[0], ops[1], ops[2], ops[3]);
    assert (t.snapshots + [YesBook(m, asks)]) + [NoBook(m)] == t.snapshots + [YesBook(m, asks), NoBook(m)];
  }

  lemma AttemptOpened(t: Tables, m: string)
    requires CohortActive(t, COHORT)
    ensures Apply(t, BeginAttempt(COHORT, m, Entry, 0)) ==
            t.(attempts := t.attempts + [Attempt(COHORT, m, Entry, 0, AttemptStatus.Started)])
  {
    hide CohortEnsured, Decided, TicketSettled, ForecastRecorded, BaselineAttached, MarkedNoTimely, ArtifactStored;
  }

  lemma BodyAccepted(t: Tables, m: string, n: nat)
    requires t.artifacts == ARTIFACTS && CohortActive(t, COHORT) && |t.attempts| == n + 1
    requires t.attempts[n] == Attempt(COHORT, m, Entry, 0, AttemptStatus.Started) && (m, "rules") in t.rules
    requires forall f | f in t.forecasts :: f.body.condition != m
    ensures ForecastError(t, BodyFor(m, n)).None?
  {
  }

  lemma Recorded(t: Tables, m: string, n: nat)
    requires |t.attempts| == n + 1 && t.attempts[n] == Attempt(COHORT, m, Entry, 0, AttemptStatus.Started)
    requires ForecastError(t, BodyFor(m, n)).None?
    ensures Apply(t, Record(BodyFor(m, n))) ==
            t.(attempts := t.attempts[..n] + [Attempt(COHORT, m, Entry, 0, Succeeded(0, 0.0))],
               forecasts := t.forecasts + [Forecast(BodyFor(m, n), ForecastHash(BodyFor(m, n)))])
  {
    hide CohortEnsured, Decided, TicketSettled, BaselineAttached, MarkedNoTimely, ArtifactStored, ForecastError;
    var done := Attempt(COHORT, m, Entry, 0, Succeeded(0, 0.0));
    assert t.attempts[n := done] == t.attempts[..n] + [done];
  }

  lemma Attached(t: Tables, m: string, asks: seq<AskLevel>, n: nat)
    requires |t.snapshots| == 2 * n + 2 && t.snapshots[2 * n] == YesBook(m, asks) && t.snapshots[2 * n + 1] == NoBook(m)
    requires |t.forecasts| == n + 1 && t.forecasts[n].body == BodyFor(m, n) && n !in t.baselines
    requires t.cohorts == OPENED.cohorts
    ensures Apply(t, Attach(n, 2 * n, 2 * n + 1, 0)) == t.(baselines := t.baselines[n := Timely(2 * n, 2 * n + 1, 0)])
  {
    hide CohortEnsured, Decided, TicketSettled, ForecastRecorded, MarkedNoTimely, ArtifactStored;
    assert TimelySnapshot(t, n, 2 * n, YES) && TimelySnapshot(t, n, 2 * n + 1, NO);
  }

  lemma ForecastedFor(t: Tables, m: string, asks: seq<AskLevel>, n: nat, spent: real)
    requires OneAccount(t, n, spent) && m !in t.markets
    ensures Run(Listed(t, m, asks), Forecasting(m, n)) == Forecasted(t, m, asks, n)
  {
    hide Apply, OpenCost, CashBalance, Run, ForecastError, YesBook, NoBook, BodyFor, ARTIFACTS, PORTFOLIO;
    var t1 := Listed(t, m, asks);
    AttemptOpened(t1, m);
    var t2 := Apply(t1, BeginAttempt(COHORT, m, Entry, 0));
    BodyAccepted(t2, m, n);
    Recorded(t2, m, n);
    assert t2.attempts[..n] == t.attempts;
    var t3 := Apply(t2, Record(BodyFor(m, n)));
    Attached(t3, m, asks, n);
    RunThree(t1, BeginAttempt(COHORT, m, Entry, 0), Record(BodyFor(m, n)), Attach(n, 2 * n, 2 * n + 1, 0));
  }

  // ---------- the decision ----------

  function MarketInputs(asks: seq<AskLevel>, n: nat, spent: real): PolicyInputs {
    PolicyInputs(
      ForecastView(false, Some(Bands(0.9, 0.9, 0.9)), Some(High), "rules", Some(DAY)), "rules", true, false, false,
      map[YES := SideBook(YES, 2 * n, 0, asks, 0.01, 1.0, false, None),
          NO := SideBook(NO, 2 * n + 1, 0, [], 0.01, 1.0, false, None)],
      100.0, 100.0 - spent, Exposure(0.0, 0.0, 0.0, spent), 0)
  }

  lemma FirstExposure(t: Tables, m: string, asks: seq<AskLevel>, n: nat, spent: real)
    requires OneAccount(t, n, spent) && m !in t.markets
    ensures ExposureOf(Forecasted(t, m, asks, n), PORTFOLIO, m, m, m) == Exposure(0.0, 0.0, 0.0, spent)
  {
    hide CashBalance, OPENED, YesBook, NoBook, BodyFor;
    var t1 := Forecasted(t, m, asks, n);
    assert forall row | row in t1.tickets ::
             row.body.condition != m && t1.markets[row.body.condition].event == row.body.condition
             && t1.markets[row.body.condition].category == row.body.condition;
    SumZero(t1.tickets, ExposedIn(t1, PORTFOLIO, OnMarket(m)));
    SumZero(t1.tickets, ExposedIn(t1, PORTFOLIO, OnEvent(t1, m)));
    SumZero(t1.tickets, ExposedIn(t1, PORTFOLIO, OnCategory(t1, m)));
    SumCongruent(t1.tickets, ExposedIn(t1, PORTFOLIO, Anywhere()), OpenCostIn(PORTFOLIO));
  }

  lemma BooksRead(t: Tables, m: string, asks: seq<AskLevel>, n: nat, spent: real)
    requires |t.snapshots| == 2 * n
    ensures BooksOf(Forecasted(t, m, asks, n), n) == Ok(MarketInputs(asks, n, spent).books)
  {
    hide BodyFor;
    var t1 := Forecasted(t, m, asks, n);
    assert t1.snapshots[2 * n] == YesBook(m, asks) && t1.snapshots[2 * n + 1] == NoBook(m);
  }

  lemma UntradedMarket(t: Tables, m: string, asks: seq<AskLevel>, n: nat, spent: real)
    requires OneAccount(t, n, spent) && m !in t.markets
    ensures var t1 := Forecasted(t, m, asks, n);
            !HasTraded(t1, PORTFOLIO, m) && !ResolutionHasStarted(t1, m)
  {
    hide BodyFor, CashBalance, OpenCost;
  }

  lemma InputsRead(t: Tables, m: string, asks: seq<AskLevel>, n: nat, spent: real)
    requires OneAccount(t, n, spent) && m !in t.markets
    ensures LoadInputs(Forecasted(t, m, asks, n), PORTFOLIO, n, 0) == Ok(MarketInputs(asks, n, spent))
  {
    hide CashOf, Balance, ExposureOf, BooksOf, OpenCostIn, HasTraded, ResolutionHasStarted, OPENED, YesBook, NoBook;
    var t1 := Forecasted(t, m, asks, n);
    FirstExposure(t, m, asks, n, spent);
    BooksRead(t, m, asks, n, spent);
    UntradedMarket(t, m, asks, n, spent);
    assert t1.forecasts[n].body == BodyFor(m, n) && t1.markets[m] == Market(m, m, "rules");
    assert CashBalance(t1, PORTFOLIO) == CashBalance(t, PORTFOLIO) && OpenCost(t1, PORTFOLIO) == OpenCost(t, PORTFOLIO);
    hide OneAccount;
  }

  /** The stake of 80, or what is left. */
  function Purse(spent: real): real { if 100.0 - spent <= 80.0 then 100.0 - spent else 80.0 }

  lemma BudgetLeft(asks: seq<AskLevel>, n: nat, spent: real)
    requires 0.0 <= spent < 100.0
    ensures BudgetFor(0.9, 0.5, MarketInputs(asks, n, spent), ALL_IN) == Purse(spent)
  {
    assert Stake(0.9, 0.5, MarketInputs(asks, n, spent), ALL_IN) == 80.0;
  }

  predicate KeepsEdge(walk: Walk, q: real, minEdge: real) {
    walk.shares > 0.0 && q - walk.CostPerShare() >= minEdge
  }

  /** What a book at a best ask of 0.5 sells to this purse. */
  ghost predicate Sells(asks: seq<AskLevel>, budget: real, walk: Walk) {
    && asks != [] && BestAsk(asks) == 0.5
    && WalkAnswer(asks, budget, 0.0, 0.55, 0.01) == Walked(walk)
    && walk.shares >= 1.0 && walk.Cost() >= 1.0 && KeepsEdge(walk, 0.9, 0.05)
  }

  lemma GateOpen(asks: seq<AskLevel>, n: nat, spent: real)
    ensures Gate(MarketInputs(asks, n, spent), ALL_IN) == None
  {
  }

  lemma SideTrades(book: SideBook, q: real, ask: real, budget: real, walk: Walk, inputs: PolicyInputs, params: Params)
    requires !book.feesEnabled && q <= 1.0 && params.minEdge > 0.0 && book.asks != []
             && BestAsk(book.asks) == ask != 1.0
    requires q - ask - FeePerShare(ask, 0.0) >= params.minEdge && BudgetFor(q, ask, inputs, params) == budget > 0.0
    requires WalkAnswer(book.asks, budget, 0.0, Limit(ask, params), book.tickSize) == Walked(walk)
    requires walk.shares >= book.minOrderSize && walk.Cost() >= book.minOrderSize && KeepsEdge(walk, q, params.minEdge)
    ensures TrySide(book, q, inputs, params) == Trade(book.side, book.snapshotId, q, ask, budget, walk)
  {
    hide WalkAnswer, BudgetFor, BestAsk, Limit, FeePerShare;
  }

  function YesSideBook(asks: seq<AskLevel>, n: nat): SideBook { SideBook(YES, 2 * n, 0, asks, 0.01, 1.0, false, None) }

  lemma YesSide(asks: seq<AskLevel>, n: nat, spent: real, walk: Walk)
    requires 0.0 <= spent < 100.0 && Sells(asks, Purse(spent), walk)
    ensures TrySide(YesSideBook(asks, n), 0.9, MarketInputs(asks, n, spent), ALL_IN) ==
            Trade(YES, 2 * n, 0.9, 0.5, Purse(spent), walk)
  {
    hide WalkAnswer, BudgetFor, BestAsk, Limit, FeePerShare, KeepsEdge, TrySide, MarketInputs;
    BudgetLeft(asks, n, spent);
    SmallFacts();
    SideTrades(YesSideBook(asks, n), 0.9, 0.5, Purse(spent), walk, MarketInputs(asks, n, spent), ALL_IN);
  }

  lemma SmallFacts()
    ensures Limit(0.5, ALL_IN) == 0.55 && FeePerShare(0.5, 0.0) == 0.0
  {
  }

  lemma YesTrade(asks: seq<AskLevel>, n: nat, spent: real, walk: Walk)
    requires 0.0 <= spent < 100.0 && Sells(asks, Purse(spent), walk)
    ensures Decide(MarketInputs(asks, n, spent), ALL_IN) == Trade(YES, 2 * n, 0.9, 0.5, Purse(spent), walk)
  {
    var inputs := MarketInputs(asks, n, spent);
    assert TrySide(inputs.books[NO], 1.0 - 0.9, inputs, ALL_IN) == Refuse(NoDepth) by {
      hide WalkAnswer, BudgetFor, BestAsk;
    }
    hide TrySide, Gate, Sells;
    assert inputs.books[YES] == YesSideBook(asks, n);
    YesSide(asks, n, spent, walk);
    GateOpen(asks, n, spent);
  }

  // ---------- the ticket ----------

  lemma WalkTotals(fills: seq<Fill>)
    requires forall f | f in fills :: GoodFill(f)
    ensures SumOf(fills, FillNotional()) >= 0.0
  {
    SumNonNegative(fills, FillNotional());
  }

  /** A draft on the new market's YES book passes every check of the ledger. */
  lemma DraftAccepted(t: Tables, t1: Tables, m: string, asks: seq<AskLevel>, n: nat, spent: real, draft: Draft)
    requires OneAccount(t, n, spent) && m !in t.markets && t1 == Forecasted(t, m, asks, n)
    requires draft.portfolio == PORTFOLIO && draft.forecast == n && draft.condition == m && draft.side == YES
    requires draft.snapshot == 2 * n && draft.policy == POLICY && draft.rulesHash == "rules" && Totals(draft).Some?
    ensures DraftError(t1, draft).None?
  {
    hide CashBalance, OpenCost, Totals, YesBook, NoBook, POLICY, ARTIFACTS;
    assert t1.forecasts[n].body == BodyFor(m, n);
  }

  lemma DebitAccepted(t: Tables, n: nat, body: TicketBody)
    requires PORTFOLIO in t.portfolios && |t.tickets| == n && body.portfolio == PORTFOLIO
    requires forall e | e in t.cash && e.ticket.Some? :: e.ticket.value < n
    requires 0.0 <= body.cost <= CashBalance(t, PORTFOLIO)
    ensures EntryAppended(TicketInserted(t, body), PORTFOLIO, Debit, body.cost, Some(n), 0).Ok?
  {
    var inserted := TicketInserted(t, body);
    assert CashBalance(inserted, PORTFOLIO) == CashBalance(t, PORTFOLIO);
    assert !HasEntry(inserted.cash, n, Debit);
    hide CashBalance;
  }

  lemma OpenedShape(t: Tables, draft: Draft, shares: real, cost: real)
    requires DraftError(t, draft).None? && Totals(draft) == Some((shares, cost))
    requires EntryAppended(TicketInserted(t, TicketBodyOf(draft, shares, cost, 0)), draft.portfolio, Debit, cost,
                           Some(|t.tickets|), 0).Ok?
    ensures var opening := TicketOpened(t, draft, 0); var body := TicketBodyOf(draft, shares, cost, 0);
            && opening.Ok? && |opening.value.cash| == |t.cash| + 1 && opening.value.cash[..|t.cash|] == t.cash
            && opening.value.cash[|t.cash|].ticket == Some(|t.tickets|)
            && opening.value == t.(tickets := t.tickets + [Ticket(body, OpenTicket, TicketHash(body))],
                                   cash := opening.value.cash,
                                   decisions := t.decisions[(draft.portfolio, draft.forecast) :=
                                                              DecisionRow(draft.condition, Traded(|t.tickets|), 0)])
  {
    hide DraftError, Totals, CashOf, Balance, BackingError;
  }

  lemma RowsGrow(t: Tables, t': Tables, m: string, n: nat, x: Ticket, f: Forecast, e: CashEntry)
    requires RowsWithin(t, n)
    requires t'.markets == t.markets[m := Market(m, m, "rules")] && t'.rules.Keys == t.rules.Keys + {(m, "rules")}
    requires t'.baselines.Keys == t.baselines.Keys + {n} && t'.decisions.Keys == t.decisions.Keys + {(PORTFOLIO, n)}
    requires t'.tickets == t.tickets + [x] && x.body.condition == m && x.body.forecast == n && IsOpenIn(x, PORTFOLIO)
    requires t'.forecasts == t.forecasts + [f] && f.body.condition == m
    requires t'.cash == t.cash + [e] && e.ticket == Some(n)
    ensures RowsWithin(t', n + 1)
  {
    hide PORTFOLIO;
    assert forall k | k in t.markets :: k in t'.markets;
    assert forall d | d in t'.decisions :: d in t.decisions.Keys || d == (PORTFOLIO, n);
    assert forall b | b in t'.baselines :: b in t.baselines.Keys || b == n;
    assert forall k | k in t'.rules :: k in t.rules.Keys || k == (m, "rules");
  }

  lemma SetUpGrows(t: Tables, m: string, asks: seq<AskLevel>, n: nat, t': Tables)
    requires SetUp(t, n) && |t'.tickets| == n + 1
    requires t' == Forecasted(t, m, asks, n).(tickets := t'.tickets, cash := t'.cash, decisions := t'.decisions)
    ensures SetUp(t', n + 1)
  {
    hide ARTIFACTS, OPENED, YesBook, NoBook, BodyFor;
  }

  /** The account after one more market, from the shape of its tables. */
  lemma AccountGrows(t: Tables, m: string, asks: seq<AskLevel>, n: nat, spent: real, cost: real, t': Tables,
                     body: TicketBody, row: DecisionRow)
    requires OneAccount(t, n, spent) && m !in t.markets
    requires body.portfolio == PORTFOLIO && body.forecast == n && body.condition == m
    requires var t1 := Forecasted(t, m, asks, n);
             && t' == t1.(tickets := t1.tickets + [Ticket(body, OpenTicket, TicketHash(body))], cash := t'.cash,
                          decisions := t1.decisions[(PORTFOLIO, n) := row])
    requires |t'.cash| == |t.cash| + 1 && t'.cash[..|t.cash|] == t.cash && t'.cash[|t.cash|].ticket == Some(n)
    requires OpenCost(t', PORTFOLIO) == spent + cost && CashBalance(t', PORTFOLIO) == 100.0 - (spent + cost)
    ensures OneAccount(t', n + 1, spent + cost)
  {
    hide OpenCost, CashBalance, OPENED, YesBook, NoBook, ARTIFACTS, PORTFOLIO, COHORT;
    SetUpGrows(t, m, asks, n, t');
    var t1 := Forecasted(t, m, asks, n);
    var x := Ticket(body, OpenTicket, TicketHash(body));
    var e := t'.cash[|t.cash|];
    assert t'.cash == t.cash + [e];
    hide SetUp, RowsWithin;
    RowsGrow(t, t', m, n, x, t1.forecasts[|t.forecasts|], e);
  }

  lemma DraftIs(t: Tables, t1: Tables, m: string, asks: seq<AskLevel>, n: nat, spent: real, d: Decision)
    returns (draft: Draft)
    requires OneAccount(t, n, spent) && t1 == Forecasted(t, m, asks, n)
    requires d.Trade? && d.side == YES && d.snapshotId == 2 * n
    ensures PORTFOLIO in t1.portfolios && n < |t1.forecasts| && draft == DraftOf(t1, PORTFOLIO, n, d)
    ensures draft == Draft(PORTFOLIO, n, 2 * n, m, YES, d.walk.fills, d.walk.fee, POLICY, "rules")
  {
    hide CashBalance, OpenCost, YesBook, NoBook, ARTIFACTS;
    assert t1.forecasts[n].body == BodyFor(m, n);
    draft := DraftOf(t1, PORTFOLIO, n, d);
  }

  lemma TicketTaken(t: Tables, t1: Tables, m: string, asks: seq<AskLevel>, n: nat, spent: real, d: Decision)
    requires OneAccount(t, n, spent) && m !in t.markets && t1 == Forecasted(t, m, asks, n)
    requires d.Trade? && d.side == YES && d.snapshotId == 2 * n
    requires d.walk.fills != [] && d.walk.fee >= 0.0 && forall f | f in d.walk.fills :: GoodFill(f)
    requires d.walk == WalkOf(d.walk.fills, 0.0) && d.walk.Cost() <= 100.0 - spent
    requires PORTFOLIO in t1.portfolios && n < |t1.forecasts|
    ensures var opening := TicketOpened(t1, DraftOf(t1, PORTFOLIO, n, d), 0);
            opening.Ok? && OneAccount(opening.value, n + 1, spent + d.walk.Cost()) && |opening.value.tickets| == n + 1
            && opening.value.tickets[n].body.fills == d.walk.fills && opening.value.markets == t1.markets
  {
    hide SumOf, DraftError, EntryAppended, TicketOpened, DraftOf, Forecasted, OPENED, ARTIFACTS, PORTFOLIO, COHORT,
         POLICY, OneAccount;
    var draft := DraftIs(t, t1, m, asks, n, spent, d);
    WalkTotals(d.walk.fills);
    var shares, cost := SumOf(d.walk.fills, FillShares()), SumOf(d.walk.fills, FillNotional()) + d.walk.fee;
    assert Totals(draft) == Some((shares, cost));
    DraftAccepted(t, t1, m, asks, n, spent, draft);
    TakenFrom(t, t1, m, asks, n, spent, draft, shares, cost);
  }

  lemma TakenFrom(t: Tables, t1: Tables, m: string, asks: seq<AskLevel>, n: nat, spent: real, draft: Draft,
                  shares: real, cost: real)
    requires OneAccount(t, n, spent) && m !in t.markets && t1 == Forecasted(t, m, asks, n)
    requires draft.portfolio == PORTFOLIO && draft.forecast == n && draft.condition == m
    requires DraftError(t1, draft).None? && Totals(draft) == Some((shares, cost)) && 0.0 <= cost <= 100.0 - spent
    ensures var opening := TicketOpened(t1, draft, 0);
            opening.Ok? && OneAccount(opening.value, n + 1, spent + cost)
            && |opening.value.tickets| == n + 1 && opening.value.tickets[n].body == TicketBodyOf(draft, shares, cost, 0)
            && opening.value.markets == t1.markets
  {
    hide SumOf, DraftError, Totals, CashOf, Balance, OpenCostIn, EntryAppended, TicketOpened, YesBook, NoBook, BodyFor;
    var body := TicketBodyOf(draft, shares, cost, 0);
    assert t1.tickets == t.tickets && t1.cash == t.cash;
    DebitAccepted(t1, n, body);
    OpenedShape(t1, draft, shares, cost);
    OpeningKeepsEquity(t1, draft, 0);
    var t' := TicketOpened(t1, draft, 0).value;
    assert CashBalance(t1, PORTFOLIO) == CashBalance(t, PORTFOLIO) && OpenCost(t1, PORTFOLIO) == OpenCost(t, PORTFOLIO);
    hide CashBalance, OpenCost, Forecasted;
    AccountGrows(t, m, asks, n, spent, cost, t', body, DecisionRow(draft.condition, Traded(n), 0));
  }

  // ---------- a market from listing to ticket ----------

  function Trading(m: string, asks: seq<AskLevel>, n: nat): seq<Op> {
    Listing(m, asks) + Forecasting(m, n) + [DecideOn(PORTFOLIO, n, 0)]
  }

  /** A walk that may become a ticket of this purse. */
  ghost predicate Sold(asks: seq<AskLevel>, spent: real, walk: Walk) {
    && 0.0 <= spent < 100.0 && Sells(asks, Purse(spent), walk) && walk == WalkOf(walk.fills, 0.0)
    && walk.fills != [] && (forall f | f in walk.fills :: GoodFill(f)) && walk.fee >= 0.0
    && walk.Cost() <= 100.0 - spent
  }

  lemma PolicyRead(t: Tables)
    requires t.artifacts == ARTIFACTS
    ensures PolicyOf(t, POLICY) == Ok(ALL_IN)
  {
  }

  lemma DecisionIs(t: Tables, n: nat, inputs: PolicyInputs, d: Decision)
    requires PortfolioKnown(t, PORTFOLIO) && n < |t.forecasts| && (PORTFOLIO, n) !in t.decisions
    requires t.cohorts[t.portfolios[PORTFOLIO].cohort].status == ActiveCohort
    requires PolicyOf(t, t.portfolios[PORTFOLIO].policy) == Ok(ALL_IN) && LoadInputs(t, PORTFOLIO, n, 0) == Ok(inputs)
    requires ValidForecastView(inputs.forecast) && ValidParams(ALL_IN) && Decide(inputs, ALL_IN) == d && d.Trade?
    requires TicketOpened(t, DraftOf(t, PORTFOLIO, n, d), 0).Ok?
    ensures Apply(t, DecideOn(PORTFOLIO, n, 0)) == TicketOpened(t, DraftOf(t, PORTFOLIO, n, d), 0).value
  {
    hide PolicyOf, LoadInputs, Decide, TicketOpened, DraftOf, ALL_IN;
    hide CohortEnsured, TicketSettled, ForecastRecorded, BaselineAttached, MarkedNoTimely, ArtifactStored,
         AttemptStarted, AttemptFailed, MarketListed;
  }

  lemma DecisionTaken(t: Tables, m: string, asks: seq<AskLevel>, n: nat, spent: real, walk: Walk)
    requires OneAccount(t, n, spent) && m !in t.markets && Sold(asks, spent, walk)
    ensures var t1 := Forecasted(t, m, asks, n); var t' := Apply(t1, DecideOn(PORTFOLIO, n, 0));
            && OneAccount(t', n + 1, spent + walk.Cost()) && |t'.tickets| > n && t'.tickets[n].body.fills == walk.fills
            && t'.markets == t1.markets
  {
    hide Sells, WalkOf, OpenCost, CashBalance, ALL_IN, YesBook, NoBook, PolicyOf, LoadInputs, Decide, TicketOpened,
         DraftOf, Apply, ARTIFACTS, COHORT, POLICY, MarketInputs, BodyFor;
    var t1 := Forecasted(t, m, asks, n);
    var d := Trade(YES, 2 * n, 0.9, 0.5, Purse(spent), walk);
    PolicyRead(t1);
    InputsRead(t, m, asks, n, spent);
    ViewValid(asks, n, spent);
    YesTrade(asks, n, spent, walk);
    assert PortfolioKnown(t1, PORTFOLIO) && (PORTFOLIO, n) !in t1.decisions;
    TicketTaken(t, t1, m, asks, n, spent, d);
    hide Forecasted, OneAccount;
    DecisionIs(t1, n, MarketInputs(asks, n, spent), d);
  }

  lemma ViewValid(asks: seq<AskLevel>, n: nat, spent: real)
    ensures ValidForecastView(MarketInputs(asks, n, spent).forecast) && ValidParams(ALL_IN)
  {
  }

  lemma Unlisted(t: Tables, m: string, asks: seq<AskLevel>, n: nat, spent: real)
    requires OneAccount(t, n, spent) && m !in t.markets
    ensures (m, "rules") !in t.rules
    ensures Forecasted(t, m, asks, n).markets.Keys == t.markets.Keys + {m}
  {
    hide OpenCost, CashBalance, YesBook, NoBook, BodyFor, OPENED, ARTIFACTS, PORTFOLIO, COHORT;
  }

  /** A market from its listing to the ticket bought on it. */
  lemma MarketTraded(t: Tables, m: string, asks: seq<AskLevel>, n: nat, spent: real, walk: Walk)
    requires OneAccount(t, n, spent) && m !in t.markets && Sold(asks, spent, walk)
    ensures var t' := Run(t, Trading(m, asks, n));
            && OneAccount(t', n + 1, spent + walk.Cost()) && |t'.tickets| > n && t'.tickets[n].body.fills == walk.fills
            && t'.markets.Keys == t.markets.Keys + {m}
  {
    hide Apply, OneAccount, Run, Sold, Listing, Forecasting, Forecasted, Listed, OPENED, ARTIFACTS, PORTFOLIO, COHORT;
    Unlisted(t, m, asks, n, spent);
    ListedFor(t, m, asks);
    ForecastedFor(t, m, asks, n, spent);
    DecisionTaken(t, m, asks, n, spent, walk);
    RunOne(Forecasted(t, m, asks, n), DecideOn(PORTFOLIO, n, 0));
    RunAppend(t, Listing(m, asks), Forecasting(m, n));
    RunAppend(t, Listing(m, asks) + Forecasting(m, n), [DecideOn(PORTFOLIO, n, 0)]);
  }

  lemma OpenedAccount()
    ensures OneAccount(OPENED, 0, 0.0)
  {
    assert CashOf([FUNDING], PORTFOLIO) == [FUNDING] by {
      assert [FUNDING][..0] == [];
      assert CashOf([], PORTFOLIO) == [];
    }
    assert Balance([FUNDING]) == 100.0 by {
      assert [FUNDING][1..] == [];
      assert SumOf([], SignedAmount()) == 0.0;
      assert Signed(FUNDING) == 100.0;
    }
    hide CashOf, Balance;
  }

  // ---------- the last cent ----------

  const DEEP := [AskLevel(0.5, 1000.0)]

  /** What a free level at 0.5 sells. */
  lemma HalfTake(level: AskLevel, remaining: real)
    requires GoodLevel(level) && level.price == 0.5
    ensures var affordable := Quanta(2.0 * remaining);
            var take := if Quanta(level.size) <= affordable then Quanta(level.size) else affordable;
            NextFill(level, remaining, 0.0) == Fill(0.5, take as real / 100.0)
  {
    assert UnitCost(level.price, 0.0) == 0.5;
    var unit := UnitCost(level.price, 0.0);
    assert remaining / unit == 2.0 * remaining;
  }

  lemma HalfCharge(shares: real)
    ensures Charge(Fill(0.5, shares), 0.0) == shares / 2.0
  {
  }

  lemma SumsOfOne(fill: Fill)
    ensures WalkOf([fill], 0.0) == Walk([fill], fill.shares, fill.shares * fill.price, 0.0)
  {
    assert [fill][1..] == [];
    assert SumOf([], FillShares()) == 0.0 && SumOf([], FillNotional()) == 0.0 && SumOf([], FillFee(0.0)) == 0.0;
  }

  lemma HalfTick()
    ensures OnTick(0.5, 0.01)
  {
    assert (0.5 / 0.01).Floor == 50;
  }

  lemma WholeQuanta(quanta: int)
    requires quanta >= 0
    ensures Quanta(quanta as real / 100.0) == quanta
  {
    assert quanta as real / 100.0 * 100.0 == quanta as real;
  }

  lemma DeepWalk(budget: real, quanta: int)
    requires budget == quanta as real / 200.0 && 200 <= quanta <= 100000
    ensures WalkAnswer(DEEP, budget, 0.0, 0.55, 0.01) == Walked(WalkOf([Fill(0.5, quanta as real / 100.0)], 0.0))
  {
    var level, fill := AskLevel(0.5, 1000.0), Fill(0.5, quanta as real / 100.0);
    assert DEEP[1..] == [];
    assert SortByPrice([]) == [] && SortByPrice(DEEP) == DEEP;
    HalfTick();
    assert FirstBadLevel(DEEP, 0.01) == None;
    WholeQuanta(quanta);
    WholeQuanta(100000);
    HalfTake(level, budget);
    hide NextFill, Charge, FirstBadLevel, WalkOf, SortByPrice;
    assert NextFill(level, budget, 0.0) == fill;
    assert Greedy([], budget - Charge(fill, 0.0), 0.0, 0.55) == [];
    assert Greedy(DEEP, budget, 0.0, 0.55) == [fill];
  }

  lemma EdgeOf(walk: Walk)
    requires walk.shares > 0.0 && walk.Cost() == walk.shares / 2.0
    ensures KeepsEdge(walk, 0.9, 0.05)
  {
    assert walk.Cost() / walk.shares == 0.5;
  }

  /** A deep level sells whatever the purse buys at 0.5. */
  lemma DeepSold(spent: real, quanta: int)
    requires 0.0 <= spent < 100.0 && Purse(spent) == quanta as real / 200.0 && 200 <= quanta <= 100000
    ensures var shares := quanta as real / 100.0;
            Sold(DEEP, spent, Walk([Fill(0.5, shares)], shares, shares / 2.0, 0.0))
  {
    hide WalkAnswer, KeepsEdge, WalkOf, BestAsk, Purse, DEEP;
    var shares := quanta as real / 100.0;
    var fill := Fill(0.5, shares);
    var walk := Walk([fill], shares, shares / 2.0, 0.0);
    DeepWalk(Purse(spent), quanta);
    SumsOfOne(fill);
    EdgeOf(walk);
    DeepBest();
    PurseLeft(spent);
    assert shares >= 2.0 && shares * 0.5 == shares / 2.0 == Purse(spent);
    assert Sells(DEEP, Purse(spent), walk);
    hide Sells;
    assert GoodFill(fill);
  }

  lemma DeepBest()
    ensures DEEP != [] && BestAsk(DEEP) == 0.5
  {
  }

  lemma PurseLeft(spent: real)
    requires 0.0 <= spent < 100.0
    ensures Purse(spent) <= 100.0 - spent
  {
  }

  lemma OpeningAdmissible()
    ensures forall op | op in OPENING :: Admissible(op)
  {
  }

  lemma TradingAdmissible(m: string, n: nat)
    ensures forall op | op in Trading(m, DEEP, n) :: Admissible(op)
  {
  }

  lemma RunTrading(a: seq<Op>, m: string, asks: seq<AskLevel>, n: nat)
    ensures Run(EMPTY, a + Trading(m, asks, n)) == Run(Run(EMPTY, a), Trading(m, asks, n))
  {
    hide Run, Trading;
    RunAppend(EMPTY, a, Trading(m, asks, n));
  }

  lemma NoMarketsYet()
    ensures OPENED.markets.Keys == {} && OPENED.portfolios[PORTFOLIO].policy == POLICY
  {
  }

  /** One more market after a run. */
  lemma NextMarket(before: seq<Op>, m: string, asks: seq<AskLevel>, n: nat, spent: real, walk: Walk, total: real)
    requires OneAccount(Run(EMPTY, before), n, spent) && m !in Run(EMPTY, before).markets
    requires Sold(asks, spent, walk) && total == spent + walk.Cost()
    ensures var t := Run(EMPTY, before + Trading(m, asks, n));
            && OneAccount(t, n + 1, total) && |t.tickets| > n && t.tickets[n].body.fills == walk.fills
            && t.markets.Keys == Run(EMPTY, before).markets.Keys + {m}
  {
    hide Run, Sold, OneAccount, Trading, Walk.Cost;
    MarketTraded(Run(EMPTY, before), m, asks, n, spent, walk);
    RunTrading(before, m, asks, n);
  }

  const FIRST := Walk([Fill(0.5, 160.0)], 160.0, 80.0, 0.0)
  const SECOND := Walk([Fill(0.5, 40.0)], 40.0, 20.0, 0.0)

  lemma BothSold()
    ensures Sold(DEEP, 0.0, FIRST) && Sold(DEEP, 80.0, SECOND) && FIRST.Cost() == 80.0 && SECOND.Cost() == 20.0
  {
    hide Sold, DEEP;
    DeepSold(0.0, 16000);
    DeepSold(80.0, 4000);
    assert 16000 as real / 100.0 == 160.0 && 4000 as real / 100.0 == 40.0;
  }

  lemma BothMarkets()
    ensures OneAccount(Run(EMPTY, OPENING + Trading("a", DEEP, 0) + Trading("b", DEEP, 1)), 2, 100.0)
  {
    NoMarketsYet();
    hide Run, Sold, OneAccount, Trading, OPENED, OPENING, DEEP, FIRST, SECOND, Walk.Cost, ARTIFACTS, PORTFOLIO, COHORT;
    Opened();
    OpenedAccount();
    BothSold();
    var before := OPENING + Trading("a", DEEP, 0);
    NextMarket(OPENING, "a", DEEP, 0, 0.0, FIRST, 80.0);
    assert "b" !in Run(EMPTY, before).markets.Keys;
    NextMarket(before, "b", DEEP, 1, 80.0, SECOND, 100.0);
  }

  lemma AccountHolds(t: Tables, n: nat, spent: real)
    requires OneAccount(t, n, spent)
    ensures PORTFOLIO in t.portfolios && PolicyOf(t, t.portfolios[PORTFOLIO].policy) == Ok(ALL_IN)
    ensures CashBalance(t, PORTFOLIO) == 100.0 - spent
  {
    NoMarketsYet();
    PolicyRead(t);
    hide PolicyOf, CashBalance, OpenCost, ARTIFACTS, ALL_IN;
  }

  /** FULL CAPS MAY SPEND THE LAST CENT: a run over books of distinct prices in which a portfolio with
      every cap at one ends with no cash, after a trade of 80 and one of the 20 left. */
  lemma LastCentSpent() returns (ops: seq<Op>)
    ensures forall op | op in ops :: Admissible(op)
    ensures var t := Run(EMPTY, ops);
            && PORTFOLIO in t.portfolios && PolicyOf(t, t.portfolios[PORTFOLIO].policy) == Ok(ALL_IN)
            && CashBalance(t, PORTFOLIO) == 0.0
  {
    OpeningAdmissible();
    TradingAdmissible("a", 0);
    TradingAdmissible("b", 1);
    hide Run, Trading, OPENED, OPENING, DEEP, CashBalance, PolicyOf, ALL_IN, Admissible, OneAccount, ARTIFACTS,
         PORTFOLIO, COHORT;
    ops := OPENING + Trading("a", DEEP, 0) + Trading("b", DEEP, 1);
    BothMarkets();
    AccountHolds(Run(EMPTY, ops), 2, 100.0);
  }

  // ---------- a repeated price ----------

  const REPEATED := [AskLevel(0.5, 10.0), AskLevel(0.5, 10.0)]
  const TWICE := Walk([Fill(0.5, 10.0), Fill(0.5, 10.0)], 20.0, 10.0, 0.0)

  const TEN := AskLevel(0.5, 10.0)
  const TEN_SHARES := Fill(0.5, 10.0)

  lemma Tens()
    ensures REPEATED == [TEN, TEN] && GoodLevel(TEN) && TEN.price == 0.5 && TEN.size == 10.0
    ensures TEN_SHARES == Fill(0.5, 10.0) && GoodFill(TEN_SHARES)
    ensures TWICE.fills == [TEN_SHARES, TEN_SHARES] && TWICE.shares == 20.0 && TWICE.fee == 0.0 && TWICE.Cost() == 10.0
  {
  }

  lemma TenSums()
    ensures FillShares()(TEN_SHARES) == 10.0 && FillNotional()(TEN_SHARES) == 5.0 && FillFee(0.0)(TEN_SHARES) == 0.0
    ensures TWICE == Walk([TEN_SHARES, TEN_SHARES], 10.0 + 10.0, 5.0 + 5.0, 0.0 + 0.0)
  {
  }

  lemma QuantaAtLeast(x: real, quanta: int)
    requires x >= quanta as real / 100.0 >= 0.0
    ensures Quanta(x) >= quanta
  {
    assert x * 100.0 >= quanta as real;
  }

  lemma SellsTen(remaining: real)
    requires remaining >= 5.0
    ensures GoodLevel(TEN) && NextFill(TEN, remaining, 0.0) == TEN_SHARES
  {
    hide NextFill, TEN, TEN_SHARES, TWICE, REPEATED, Quanta;
    Tens();
    HalfTake(TEN, remaining);
    WholeQuanta(1000);
    assert 1000 as real / 100.0 == 10.0;
    QuantaAtLeast(2.0 * remaining, 1000);
  }

  /** A level repeated is bought twice. */
  lemma TwoTakes(level: AskLevel, fill: Fill, budget: real, cost: real, limit: real)
    requires GoodLevel(level) && level.price <= limit && fill.shares > 0.0 && Charge(fill, 0.0) == cost
    requires NextFill(level, budget, 0.0) == fill && NextFill(level, budget - cost, 0.0) == fill
    ensures GoodBook([level, level]) && Greedy([level, level], budget, 0.0, limit) == [fill, fill]
  {
    hide NextFill, Charge;
    assert [level, level][1..] == [level] && [level][1..] == [];
    assert Greedy([], budget - cost - cost, 0.0, limit) == [];
    assert Greedy([level], budget - cost, 0.0, limit) == [fill];
  }

  lemma RepeatedGreedy()
    ensures GoodBook(REPEATED) && Greedy(REPEATED, 80.0, 0.0, 0.55) == [TEN_SHARES, TEN_SHARES]
  {
    hide Greedy, NextFill, Charge, REPEATED, TEN, TEN_SHARES, TWICE;
    Tens();
    SellsTen(80.0);
    SellsTen(75.0);
    HalfCharge(10.0);
    TwoTakes(TEN, TEN_SHARES, 80.0, 5.0, 0.55);
  }

  lemma RepeatedSorted()
    ensures SortByPrice(REPEATED) == REPEATED && FirstBadLevel(REPEATED, 0.01) == None
  {
    hide REPEATED, TEN, OnTick, TWICE, TEN_SHARES;
    Tens();
    HalfTick();
    assert [TEN, TEN][1..] == [TEN] && [TEN][1..] == [];
    assert SortByPrice([]) == [] && SortByPrice([TEN]) == [TEN];
  }

  lemma RepeatedWalk()
    ensures WalkAnswer(REPEATED, 80.0, 0.0, 0.55, 0.01) == Walked(WalkOf([TEN_SHARES, TEN_SHARES], 0.0))
  {
    RepeatedGreedy();
    RepeatedSorted();
    hide Greedy, FirstBadLevel, WalkOf, SortByPrice, REPEATED, TEN_SHARES;
  }

  lemma SumOfTwo(fill: Fill, f: Fill -> real)
    ensures SumOf([fill, fill], f) == f(fill) + f(fill)
  {
    assert [fill, fill][1..] == [fill] && [fill][1..] == [];
    assert SumOf([], f) == 0.0;
    assert SumOf([fill], f) == f(fill) + SumOf([], f);
  }

  lemma TwiceWalk()
    ensures WalkOf([TEN_SHARES, TEN_SHARES], 0.0) == TWICE
  {
    hide SumOf, TEN_SHARES, TWICE, FillShares, FillNotional, FillFee;
    TenSums();
    SumOfTwo(TEN_SHARES, FillShares());
    SumOfTwo(TEN_SHARES, FillNotional());
    SumOfTwo(TEN_SHARES, FillFee(0.0));
  }

  lemma RepeatedBest()
    ensures REPEATED != [] && BestAsk(REPEATED) == 0.5
  {
    hide REPEATED, TEN, TWICE, TEN_SHARES;
    Tens();
    assert [TEN, TEN][1..] == [TEN] && BestAsk([TEN]) == TEN.price;
  }

  lemma RepeatedSold()
    ensures Sold(REPEATED, 0.0, TWICE) && TWICE.Cost() == 10.0
  {
    hide WalkAnswer, WalkOf, BestAsk, REPEATED, GoodFill, TEN_SHARES, TWICE, Walk.Cost, KeepsEdge;
    Tens();
    RepeatedWalk();
    TwiceWalk();
    EdgeOf(TWICE);
    RepeatedBest();
    assert Purse(0.0) == 80.0;
    assert Sells(REPEATED, 80.0, TWICE);
  }

  /** DISTINCT PRICES ARE NEEDED: after a run from the empty ledger over a book that repeats a price the
      auditor reports the ticket bought from it. */
  lemma RepeatedPriceFailsAudit()
    ensures !AuditClean(Run(EMPTY, OPENING + Trading("a", REPEATED, 0)))
  {
    NoMarketsYet();
    hide Run, Sold, Trading, OneAccount, OPENED, OPENING, REPEATED, AuditClean, TWICE, Walk.Cost, ARTIFACTS,
         PORTFOLIO, COHORT;
    Opened();
    OpenedAccount();
    RepeatedSold();
    NextMarket(OPENING, "a", REPEATED, 0, 0.0, TWICE, 10.0);
    RepeatedReported(Run(EMPTY, OPENING + Trading("a", REPEATED, 0)));
  }

  lemma RepeatedReported(t: Tables)
    requires |t.tickets| > 0 && t.tickets[0].body.fills == TWICE.fills
    ensures !AuditClean(t)
  {
    hide ArtifactsClean, ForeignKeys, OneActive, CohortsClean, CashAllClean, ForecastsClean, TicketsClean,
         DecisionsClean;
    var fills := t.tickets[0].body.fills;
    assert fills[0].price == fills[1].price;
    assert !FillsClean(t, t.tickets[0].body);
  }
}
