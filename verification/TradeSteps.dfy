/** Opening a ticket keeps the ledger audit-clean; a trade of the policy is always such an opening. */
module TradeSteps {
  import opened Prelude
  import opened Sums
  import opened Fills
  import opened PolicyParams
  import opened Policy
  import opened Schema
  import opened Cash
  import opened Tickets
  import opened Paper
  import opened Invariants
  import opened Steps
  import opened Growth
  import opened Reachability
  import opened RecordedBook

  /** The tables after one opening, written out. */
  function OpenedWith(t: Tables, body: TicketBody, debit: CashEntry, row: DecisionRow): Tables {
    t.(tickets := t.tickets + [Ticket(body, OpenTicket, TicketHash(body))],
       cash := t.cash + [debit],
       decisions := t.decisions[(body.portfolio, body.forecast) := row])
  }

  /** What an accepted draft has been checked for. */
  ghost predicate Backed(t: Tables, body: TicketBody, debit: CashEntry, row: DecisionRow) {
    && BackedByForecast(t, body)
    && (body.portfolio, body.forecast) !in t.decisions
    && body.cost >= 0.0 && body.shares >= 0.0
    && CashBalance(t, body.portfolio) >= body.cost
    && debit == NextEntry(t, body.portfolio, Debit, body.cost, Some(|t.tickets|), body.createdAt)
    && row == DecisionRow(body.condition, Traded(|t.tickets|), body.createdAt)
  }

  function OpenedBody(t: Tables, draft: Draft, now: int): TicketBody
    requires Totals(draft).Some?
  {
    TicketBodyOf(draft, Totals(draft).value.0, Totals(draft).value.1, now)
  }

  lemma {:induction false} SharesPositive(fills: seq<Fill>)
    requires forall f | f in fills :: GoodFill(f)
    ensures SumOf(fills, FillShares()) >= 0.0
    ensures SumOf(fills, FillNotional()) >= 0.0
    ensures fills != [] ==> SumOf(fills, FillNotional()) > 0.0
  {
    if fills != [] {
      SharesPositive(fills[1..]);
      assert GoodFill(fills[0]);
      Reals.MulStrict(0.0, fills[0].shares, fills[0].price);
    }
  }

  lemma TicketOpenedShape(t: Tables, draft: Draft, now: int) returns (debit: CashEntry, row: DecisionRow)
    requires TicketOpened(t, draft, now).Ok?
    ensures Totals(draft).Some?
    ensures TicketOpened(t, draft, now).value == OpenedWith(t, OpenedBody(t, draft, now), debit, row)
    ensures Backed(t, OpenedBody(t, draft, now), debit, row)
  {
    var body := OpenedBody(t, draft, now);
    debit := NextEntry(t, body.portfolio, Debit, body.cost, Some(|t.tickets|), now);
    row := DecisionRow(body.condition, Traded(|t.tickets|), now);
    SharesPositive(draft.fills);
  }

  lemma OpenedExtends(t: Tables, body: TicketBody, debit: CashEntry, row: DecisionRow)
    requires Backed(t, body, debit, row)
    ensures Extends(t, OpenedWith(t, body, debit, row))
  {
  }

  lemma OpenedForeignKeys(t: Tables, body: TicketBody, debit: CashEntry, row: DecisionRow)
    requires Backed(t, body, debit, row) && ForeignKeys(t)
    ensures ForeignKeys(OpenedWith(t, body, debit, row))
  {
  }

  lemma OpenedCash(t: Tables, body: TicketBody, debit: CashEntry, row: DecisionRow)
    requires Backed(t, body, debit, row) && ForeignKeys(t) && CashAllClean(t)
    ensures CashAllClean(OpenedWith(t, body, debit, row))
  {
    var t' := OpenedWith(t, body, debit, row);
    OpenedExtends(t, body, debit, row);
    forall p | p in t'.portfolios
      ensures CashClean(t', p)
    {
      CashOfSnoc(t.cash, debit, p);
      if p == body.portfolio {
        CashExtended(t, t', p, debit);
      } else {
        assert CashOf(t.cash, p) + [] == CashOf(t.cash, p);
        CashKept(t, t', p);
      }
    }
  }

  /** No cash entry names a ticket that does not exist yet. */
  lemma NewTicketUnpaid(t: Tables, kind: CashKind)
    requires ForeignKeys(t)
    ensures Amounts(t.cash, |t.tickets|, kind) == []
  {
    AmountsNone(t.cash, |t.tickets|, kind);
  }

  lemma OpenedNewTicket(t: Tables, body: TicketBody, debit: CashEntry, row: DecisionRow)
    requires Backed(t, body, debit, row) && ForeignKeys(t)
    ensures TicketClean(OpenedWith(t, body, debit, row), |t.tickets|)
  {
    var t' := OpenedWith(t, body, debit, row);
    OpenedExtends(t, body, debit, row);
    BackingKept(t, t', body);
    NewTicketUnpaid(t, Debit);
    NewTicketUnpaid(t, Credit);
    AmountsSnoc(t.cash, debit, |t.tickets|, Debit);
    AmountsSnoc(t.cash, debit, |t.tickets|, Credit);
  }

  lemma OpenedOldTicket(t: Tables, body: TicketBody, debit: CashEntry, row: DecisionRow, k: nat)
    requires Backed(t, body, debit, row) && ForeignKeys(t) && k < |t.tickets| && TicketClean(t, k)
    ensures TicketClean(OpenedWith(t, body, debit, row), k)
  {
    var t' := OpenedWith(t, body, debit, row);
    OpenedExtends(t, body, debit, row);
    AmountsSnoc(t.cash, debit, k, Debit);
    AmountsSnoc(t.cash, debit, k, Credit);
    assert Amounts(t.cash, k, Debit) + [] == Amounts(t.cash, k, Debit);
    assert Amounts(t.cash, k, Credit) + [] == Amounts(t.cash, k, Credit);
    TicketKept(t, t', k);
  }

  lemma OpenedTickets(t: Tables, body: TicketBody, debit: CashEntry, row: DecisionRow)
    requires Backed(t, body, debit, row) && ForeignKeys(t) && TicketsClean(t)
    ensures TicketsClean(OpenedWith(t, body, debit, row))
  {
    var t' := OpenedWith(t, body, debit, row);
    forall k: nat | k < |t'.tickets|
      ensures TicketClean(t', k)
    {
      hide TicketClean, Backed;
      if k < |t.tickets| {
        OpenedOldTicket(t, body, debit, row, k);
      } else {
        OpenedNewTicket(t, body, debit, row);
      }
    }
  }

  lemma OpenedFills(t: Tables, body: TicketBody, debit: CashEntry, row: DecisionRow)
    requires Backed(t, body, debit, row) && ForeignKeys(t) && AllFillsClean(t) && FillsClean(t, body)
    ensures AllFillsClean(OpenedWith(t, body, debit, row))
  {
    var t' := OpenedWith(t, body, debit, row);
    OpenedExtends(t, body, debit, row);
    forall k: nat | k < |t'.tickets|
      ensures FillsClean(t', t'.tickets[k].body)
    {
      FillsKept(t, t', t'.tickets[k].body);
    }
  }

  lemma OpenedDecisions(t: Tables, body: TicketBody, debit: CashEntry, row: DecisionRow)
    requires Backed(t, body, debit, row) && ForeignKeys(t) && DecisionsClean(t)
    ensures DecisionsClean(OpenedWith(t, body, debit, row))
  {
    OpenedExtends(t, body, debit, row);
    DecisionsKept(t, OpenedWith(t, body, debit, row));
  }

  lemma OpenedSupported(t: Tables, body: TicketBody, debit: CashEntry, row: DecisionRow)
    requires Backed(t, body, debit, row) && Supported(t)
    ensures Supported(OpenedWith(t, body, debit, row))
  {
  }

  lemma OpenedBackground(t: Tables, body: TicketBody, debit: CashEntry, row: DecisionRow)
    requires Backed(t, body, debit, row) && ForeignKeys(t)
    requires ArtifactsClean(t) && OneActive(t) && CohortsClean(t) && ForecastsClean(t)
    ensures var t' := OpenedWith(t, body, debit, row);
            ArtifactsClean(t') && OneActive(t') && CohortsClean(t') && ForecastsClean(t')
  {
    var t' := OpenedWith(t, body, debit, row);
    OpenedExtends(t, body, debit, row);
    CohortsKept(t, t');
    ForecastsKept(t, t', |t.forecasts|);
  }

  lemma OpenedAudit(t: Tables, body: TicketBody, debit: CashEntry, row: DecisionRow)
    requires AuditClean(t) && Backed(t, body, debit, row) && FillsClean(t, body)
    ensures AuditClean(OpenedWith(t, body, debit, row))
  {
    OpenedForeignKeys(t, body, debit, row);
    OpenedBackground(t, body, debit, row);
    OpenedCash(t, body, debit, row);
    OpenedTickets(t, body, debit, row);
    OpenedFills(t, body, debit, row);
    OpenedDecisions(t, body, debit, row);
  }

  lemma OpenedInv(t: Tables, body: TicketBody, debit: CashEntry, row: DecisionRow)
    requires Inv(t) && Backed(t, body, debit, row) && FillsClean(t, body)
    ensures Inv(OpenedWith(t, body, debit, row))
  {
    OpenedAudit(t, body, debit, row);
    OpenedSupported(t, body, debit, row);
  }

  // ---------- from a sound trade to clean fills ----------

  /** The ticket a trade asks for. */
  ghost predicate AsTraded(body: TicketBody, d: Decision, now: int)
    requires d.Trade?
  {
    && body.fills == d.walk.fills && body.fee == d.walk.fee
    && body.shares == SumOf(d.walk.fills, FillShares())
    && body.cost == SumOf(d.walk.fills, FillNotional()) + d.walk.fee
    && body.createdAt == now
  }

  lemma PrefixUnder(fills: seq<Fill>, levels: seq<AskLevel>, limit: real)
    requires PrefixOfBook(fills, levels, limit)
    ensures forall f | f in fills :: f.price <= limit
  {
  }

  lemma PrefixUnderLimit(fills: seq<Fill>, asks: seq<AskLevel>, params: Params, limit: real)
    requires asks != [] && PrefixOfBook(fills, SortByPrice(asks), limit)
    requires limit == BestAsk(asks) * (1.0 + params.maxSlippage)
    ensures UnderSlippage(fills, asks, params)
  {
    PrefixUnder(fills, SortByPrice(asks), limit);
  }

  lemma TradeMoney(s: Snapshot, book: SideBook, d: Decision, inputs: PolicyInputs, params: Params, body: TicketBody)
    requires d.Trade? && SoundTrade(d, book, inputs, params) && book == SideBookOf(s, book.snapshotId, book.side)
    requires AsTraded(body, d, inputs.now)
    ensures MoneyMatches(s, body) && BookYoung(s, body, params)
  {
    hide PrefixOfBook, GoodBook, WithinCaps;
  }

  lemma TradeLevels(s: Snapshot, book: SideBook, d: Decision, inputs: PolicyInputs, params: Params)
    requires d.Trade? && SoundTrade(d, book, inputs, params) && book == SideBookOf(s, book.snapshotId, book.side)
    requires DistinctAsks(s)
    ensures WithinRecordedBook(d.walk.fills, s.asks) && UnderSlippage(d.walk.fills, s.asks, params)
  {
    hide PrefixOfBook, GoodBook, WithinCaps, WithinRecordedBook, UnderSlippage, Greedy;
    assert DistinctLevels(s.asks);
    PrefixIsRecorded(d.walk.fills, s.asks, Limit(d.bestAsk, params));
    PrefixUnderLimit(d.walk.fills, s.asks, params, Limit(d.bestAsk, params));
  }

  /** A sound trade's fills pass the auditor's fill check. */
  lemma TradeFillsMatch(s: Snapshot, book: SideBook, d: Decision, inputs: PolicyInputs, params: Params,
                        body: TicketBody)
    requires d.Trade? && SoundTrade(d, book, inputs, params) && DistinctAsks(s)
    requires book == SideBookOf(s, book.snapshotId, book.side)
    requires AsTraded(body, d, inputs.now)
    ensures FillsMatch(s, Some(params), body)
  {
    hide SoundTrade, WithinRecordedBook, MoneyMatches, BookYoung, UnderSlippage;
    TradeMoney(s, book, d, inputs, params, body);
    TradeLevels(s, book, d, inputs, params);
  }

  lemma PolicyReadable(t: Tables, digest: Digest)
    requires PolicyOf(t, digest).Ok?
    ensures TicketPolicy(t, digest) == Some(PolicyOf(t, digest).value)
  {
  }

  /** A decision transaction that reached the policy, and its inputs. */
  ghost predicate Deciding(t: Tables, p: PortfolioId, f: nat, now: int, params: Params, inputs: PolicyInputs) {
    && PortfolioKnown(t, p) && (p, f) !in t.decisions
    && t.cohorts[t.portfolios[p].cohort].status == ActiveCohort
    && PolicyOf(t, t.portfolios[p].policy) == Ok(params)
    && LoadInputs(t, p, f, now) == Ok(inputs)
    && f < |t.forecasts|
    && ValidForecastView(inputs.forecast) && ValidParams(params)
  }

  /** The books of a decision that trades are the forecast's own timely pair. */
  lemma TradedBook(t: Tables, p: PortfolioId, f: nat, now: int, params: Params, inputs: PolicyInputs)
    requires Deciding(t, p, f, now, params, inputs) && Decide(inputs, params).Trade?
    ensures var d := Decide(inputs, params);
            && SideSnapshot(t, f, d.side) == Some(d.snapshotId) && d.snapshotId < |t.snapshots|
            && SoundTrade(d, SideBookOf(t.snapshots[d.snapshotId], d.snapshotId, d.side), inputs, params)
    ensures Gate(inputs, params) == None
  {
    hide SoundTrade, Decide, TrySide, Gate, PolicyOf;
    DecideSound(inputs, params);
    DecideIsBestSide(inputs, params);
  }

  lemma GateFacts(t: Tables, p: PortfolioId, f: nat, now: int, params: Params, inputs: PolicyInputs)
    requires Deciding(t, p, f, now, params, inputs) && Gate(inputs, params) == None
    ensures !t.forecasts[f].body.abstained && !HasTraded(t, p, t.forecasts[f].body.condition)
    ensures inputs.availableCash == CashBalance(t, p) && inputs.now == now
  {
  }

  lemma TradedFillsClean(t: Tables, p: PortfolioId, f: nat, now: int, params: Params, inputs: PolicyInputs)
    requires Deciding(t, p, f, now, params, inputs) && Decide(inputs, params).Trade?
    requires Supported(t)
    requires Totals(DraftOf(t, p, f, Decide(inputs, params))).Some?
    ensures FillsClean(t, OpenedBody(t, DraftOf(t, p, f, Decide(inputs, params)), now))
  {
    hide Decide, SoundTrade, FillsMatch, PolicyOf, TicketPolicy;
    var d := Decide(inputs, params);
    TradedBook(t, p, f, now, params, inputs);
    GateFacts(t, p, f, now, params, inputs);
    PolicyReadable(t, t.portfolios[p].policy);
    var s := t.snapshots[d.snapshotId];
    assert s in t.snapshots;
    TradeFillsMatch(s, SideBookOf(s, d.snapshotId, d.side), d, inputs, params, OpenedBody(t, DraftOf(t, p, f, d), now));
  }

  lemma TradeTotals(t: Tables, p: PortfolioId, f: nat, d: Decision, book: SideBook, inputs: PolicyInputs,
                    params: Params)
    requires d.Trade? && SoundTrade(d, book, inputs, params)
    requires p in t.portfolios && f < |t.forecasts|
    ensures Totals(DraftOf(t, p, f, d)) == Some((d.walk.shares, d.walk.Cost()))
    ensures 0.0 <= d.walk.Cost() <= inputs.availableCash
  {
    var levels := SortByPrice(book.asks);
    forall x | x in d.walk.fills
      ensures GoodFill(x)
    {
      var i :| 0 <= i < |d.walk.fills| && d.walk.fills[i] == x;
      assert levels[i] in levels;
    }
    SharesPositive(d.walk.fills);
  }

  lemma NotTaken(t: Tables, draft: Draft)
    requires TicketsClean(t) && !HasTraded(t, draft.portfolio, draft.condition)
    requires draft.forecast < |t.forecasts| && t.forecasts[draft.forecast].body.condition == draft.condition
    ensures !TakenInPortfolio(t, draft)
  {
    forall row | row in t.tickets && row.body.portfolio == draft.portfolio
      ensures row.body.condition != draft.condition && row.body.forecast != draft.forecast
    {
      var k: nat :| k < |t.tickets| && t.tickets[k] == row;
      assert TicketClean(t, k);
      assert BackedByForecast(t, row.body);
    }
  }

  lemma DebitAccepted(t: Tables, body: TicketBody, now: int)
    requires ForeignKeys(t) && body.portfolio in t.portfolios
    requires 0.0 <= body.cost <= CashBalance(t, body.portfolio)
    ensures EntryAppended(TicketInserted(t, body), body.portfolio, Debit, body.cost, Some(|t.tickets|), now).Ok?
  {
  }

  /** EVERY TRADE THE POLICY RETURNS IS ACCEPTED by the ledger. */
  lemma TradeAccepted(t: Tables, p: PortfolioId, f: nat, now: int, params: Params, inputs: PolicyInputs)
    requires Inv(t) && Deciding(t, p, f, now, params, inputs) && Decide(inputs, params).Trade?
    requires EntryOfCohort(t, f, p)
    ensures TicketOpened(t, DraftOf(t, p, f, Decide(inputs, params)), now).Ok?
  {
    hide ArtifactsClean, OneActive, CohortsClean, CashAllClean, ForecastsClean, AllFillsClean, DecisionsClean,
         Supported, Decide, SoundTrade, TakenInPortfolio, HasTraded;
    var d := Decide(inputs, params);
    TradedBook(t, p, f, now, params, inputs);
    GateFacts(t, p, f, now, params, inputs);
    TradeTotals(t, p, f, d, SideBookOf(t.snapshots[d.snapshotId], d.snapshotId, d.side), inputs, params);
    var draft := DraftOf(t, p, f, d);
    NotTaken(t, draft);
    assert DraftError(t, draft) == None;
    DebitAccepted(t, OpenedBody(t, draft, now), now);
  }

  /** A decision that opened a ticket keeps the invariant. */
  lemma TradedInv(t: Tables, p: PortfolioId, f: nat, now: int, params: Params, inputs: PolicyInputs)
    requires Inv(t) && Deciding(t, p, f, now, params, inputs) && Decide(inputs, params).Trade?
    requires TicketOpened(t, DraftOf(t, p, f, Decide(inputs, params)), now).Ok?
    ensures Inv(TicketOpened(t, DraftOf(t, p, f, Decide(inputs, params)), now).value)
  {
    var draft := DraftOf(t, p, f, Decide(inputs, params));
    var debit, row := TicketOpenedShape(t, draft, now);
    TradedFillsClean(t, p, f, now, params, inputs);
    OpenedInv(t, OpenedBody(t, draft, now), debit, row);
  }

  lemma DecidedInv(t: Tables, p: PortfolioId, f: nat, now: int)
    requires Inv(t) && Decided(t, p, f, now).Ok?
    ensures Inv(Decided(t, p, f, now).value.0)
  {
    hide Inv;
    if (p, f) !in t.decisions {
      if t.cohorts[t.portfolios[p].cohort].status != ActiveCohort {
        RefusalInv(t, p, f, CohortClosed, now);
      } else {
        var params := PolicyOf(t, t.portfolios[p].policy).value;
        var inputs := LoadInputs(t, p, f, now).value;
        match Decide(inputs, params) {
          case Refuse(reason) => RefusalInv(t, p, f, ByPolicy(reason), now);
          case Trade(_, _, _, _, _, _) => TradedInv(t, p, f, now, params, inputs);
        }
      }
    }
  }

  /** WHEN DECIDING RAISES on a reachable ledger: given an entry forecast of its cohort with a baseline row,
      a portfolio gets its one decision unless it is undecided in an active cohort and its policy artifact
      cannot be read. */
  lemma DecidesIff(t: Tables, p: PortfolioId, f: nat, now: int)
    requires Inv(t) && PortfolioKnown(t, p) && EntryOfCohort(t, f, p) && f in t.baselines
    ensures Decided(t, p, f, now).Ok? <==>
            || (p, f) in t.decisions
            || t.cohorts[t.portfolios[p].cohort].status == ClosedCohort
            || PolicyOf(t, t.portfolios[p].policy).Ok?
    ensures Decided(t, p, f, now).Ok? ==> (p, f) in Decided(t, p, f, now).value.0.decisions
  {
    hide Inv;
    if (p, f) !in t.decisions && t.cohorts[t.portfolios[p].cohort].status == ActiveCohort {
      if PolicyOf(t, t.portfolios[p].policy).Ok? {
        InputsLoad(t, p, f, now);
        var params := PolicyOf(t, t.portfolios[p].policy).value;
        var inputs := LoadInputs(t, p, f, now).value;
        if Decide(inputs, params).Trade? {
          TradeAccepted(t, p, f, now, params, inputs);
        }
      } else {
        hide PolicyOf, LoadInputs, Decide, RefusalRecorded, TicketOpened;
      }
    }
  }

  lemma InputsLoad(t: Tables, p: PortfolioId, f: nat, now: int)
    requires Inv(t) && f < |t.forecasts|
    ensures LoadInputs(t, p, f, now).Ok?
  {
    hide ArtifactsClean, OneActive, CohortsClean, CashAllClean, TicketsClean, AllFillsClean, DecisionsClean;
    var b := t.forecasts[f].body;
    assert t.forecasts[f] in t.forecasts;
    assert (b.condition, b.rulesHash) in t.rules;
    assert ForecastClean(t, f);
  }
}
