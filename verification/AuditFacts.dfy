/** What a clean audit says of each record, in the records' own columns
    (src/predict_agent/invariants.py:84-415). */
module AuditFacts {
  import opened Prelude
  import opened Sums
  import opened Fills
  import opened PolicyParams
  import opened Policy
  import opened Settlement
  import opened Schema
  import opened Cash
  import opened Settling
  import opened Invariants

  // ---------- cohorts, portfolios, forecasts, decisions ----------

  /** OF A COHORT: at most one is active, each is stored under its identity's hash with its window and prompt, and
      its portfolios are exactly the declared ones, each under its own hash with its policy and bankroll. */
  lemma CohortFacts(t: Tables, c: CohortId, p: PortfolioId)
    requires AuditClean(t) && c in t.cohorts
    ensures var row := t.cohorts[c];
            && c == CohortHash(row.identity) && row.window == row.identity.window
            && (forall d | d in t.cohorts && t.cohorts[d].status == ActiveCohort && row.status == ActiveCohort ::
                d == c)
            && row.identity.promptHash in t.artifacts && t.artifacts[row.identity.promptHash].kind == PromptArtifact
            && (forall v | v in row.identity.portfolios ::
                  PortfolioHash(c, v.name) in t.portfolios && t.portfolios[PortfolioHash(c, v.name)].cohort == c)
            && (p in t.portfolios && t.portfolios[p].cohort == c ==>
                  && p == PortfolioHash(c, t.portfolios[p].variant) && t.portfolios[p].bankroll == row.bankroll
                  && Variant(t.portfolios[p].variant, t.portfolios[p].policy) in row.identity.portfolios
                  && t.portfolios[p].policy in t.artifacts
                  && t.artifacts[t.portfolios[p].policy].kind == PolicyArtifact)
  {
    hide CashAllClean, ForecastsClean, TicketsClean, AllFillsClean, DecisionsClean, ForeignKeys, ArtifactsClean;
    assert CohortClean(t, c);
    if p in t.portfolios && t.portfolios[p].cohort == c {
      assert PortfolioRowClean(t, p, c);
      var v :| v in t.cohorts[c].identity.portfolios
               && v.name == t.portfolios[p].variant && v.policy == t.portfolios[p].policy;
      assert v == Variant(t.portfolios[p].variant, t.portfolios[p].policy);
    }
  }

  /** OF A FORECAST: it carries its own hash, its input and transcript are stored, it closed a successful attempt of
      its own cohort and market at its own cost, and a baseline's two books are of its market and fetched inside its
      cohort's window. */
  lemma ForecastFacts(t: Tables, f: nat)
    requires AuditClean(t) && f < |t.forecasts|
    ensures var row, b := t.forecasts[f], t.forecasts[f].body;
            && row.hash == ForecastHash(b) && b.cohort in t.cohorts && (b.condition, b.rulesHash) in t.rules
            && b.inputHash in t.artifacts && t.artifacts[b.inputHash].kind == ResearchInput
            && b.transcriptHash in t.artifacts && t.artifacts[b.transcriptHash].kind == ToolTranscript
            && b.attempt < |t.attempts|
            && (var a := t.attempts[b.attempt];
                && a.status.Succeeded? && a.status.cost == b.cost && a.cohort == b.cohort && a.condition == b.condition)
            && (f in t.baselines && t.baselines[f].Timely? ==>
                  BookInWindow(t, b, t.baselines[f].yes, YES) && BookInWindow(t, b, t.baselines[f].no, NO))
  {
    hide CashAllClean, CohortsClean, TicketsClean, AllFillsClean, DecisionsClean, ArtifactsClean, OneActive;
    assert ForecastClean(t, f);
    assert t.forecasts[f] in t.forecasts;
  }

  predicate BookInWindow(t: Tables, b: ForecastBody, snapshot: nat, side: Side) {
    && snapshot < |t.snapshots| && b.cohort in t.cohorts
    && t.snapshots[snapshot].condition == b.condition && t.snapshots[snapshot].side == side
    && 0 <= t.snapshots[snapshot].fetchedAt - b.createdAt <= t.cohorts[b.cohort].window * 1_000_000
  }

  /** OF A DECISION: it is a portfolio's on an entry forecast of its own cohort, and names a stored ticket if it
      traded; of an artifact, that it is stored under its own digest. */
  lemma DecisionFacts(t: Tables, d: (PortfolioId, nat), digest: Digest)
    requires AuditClean(t) && d in t.decisions
    ensures d.0 in t.portfolios && d.1 < |t.forecasts| && t.portfolios[d.0].cohort in t.cohorts
    ensures t.forecasts[d.1].body.kind == Entry && t.forecasts[d.1].body.cohort == t.portfolios[d.0].cohort
    ensures t.decisions[d].kind.Traded? ==> t.decisions[d].kind.ticket < |t.tickets|
    ensures digest in t.artifacts ==> digest == Sha(t.artifacts[digest].content)
  {
    hide CashAllClean, CohortsClean, TicketsClean, AllFillsClean, ForecastsClean, OneActive;
    assert DecisionRowClean(t, d);
  }

  // ---------- cash ----------

  /** OF A PORTFOLIO'S CASH: every entry is chained to the one before it, the first and only the first is the funding
      of its bankroll, the running balance is never negative, and each other entry is for a ticket of its own. */
  lemma CashFacts(t: Tables, p: PortfolioId, i: nat)
    requires AuditClean(t) && p in t.portfolios && i < |CashOf(t.cash, p)|
    ensures var rows := CashOf(t.cash, p); var e := rows[i];
            && e.hash == CashHash(p, e.kind, e.amount, e.ticket, e.at, if i == 0 then Genesis else rows[i - 1].hash)
            && (e.kind == Funding <==> i == 0) && (i == 0 ==> e.amount == t.portfolios[p].bankroll)
            && SumOf(rows[..i + 1], SignedAmount()) >= 0.0
            && (e.ticket.Some? ==> e.ticket.value < |t.tickets| && t.tickets[e.ticket.value].body.portfolio == p)
  {
    hide CohortsClean, TicketsClean, AllFillsClean, ForecastsClean, OneActive, DecisionsClean, ForeignKeys,
         ArtifactsClean, CashOf;
    assert CashClean(t, p);
    var rows := CashOf(t.cash, p);
    assert Balance(rows[..i + 1]) >= 0.0;
    assert rows[i] in rows && OwnsEntry(t, p, rows[i]);
    if i > 0 {
      assert rows[..i][|rows[..i]| - 1] == rows[i - 1];
    }
  }

  // ---------- tickets ----------

  predicate IsFor(e: CashEntry, ticket: nat, kind: CashKind) { e.ticket == Some(ticket) && e.kind == kind }

  /** Exactly one entry of that kind is for the ticket, and it is of this amount. */
  ghost predicate PaidOnce(cash: seq<CashEntry>, ticket: nat, kind: CashKind, amount: real) {
    exists i :: && 0 <= i < |cash| && IsFor(cash[i], ticket, kind) && cash[i].amount == amount
                && forall j | 0 <= j < |cash| && IsFor(cash[j], ticket, kind) :: j == i
  }

  predicate NeverPaid(cash: seq<CashEntry>, ticket: nat, kind: CashKind) {
    forall i | 0 <= i < |cash| :: !IsFor(cash[i], ticket, kind)
  }

  lemma PaidSnoc(init: seq<CashEntry>, e: CashEntry, ticket: nat, kind: CashKind, amount: real)
    ensures NeverPaid(init + [e], ticket, kind) <==> NeverPaid(init, ticket, kind) && !IsFor(e, ticket, kind)
    ensures !IsFor(e, ticket, kind) && PaidOnce(init, ticket, kind, amount)
            ==> PaidOnce(init + [e], ticket, kind, amount)
    ensures IsFor(e, ticket, kind) && NeverPaid(init, ticket, kind) ==> PaidOnce(init + [e], ticket, kind, e.amount)
  {
    hide IsFor;
    var all := init + [e];
    assert all[|init|] == e && forall i | 0 <= i < |init| :: all[i] == init[i];
  }

  lemma {:induction false} AmountsMean(cash: seq<CashEntry>, ticket: nat, kind: CashKind, amount: real)
    ensures Amounts(cash, ticket, kind) == [] <==> NeverPaid(cash, ticket, kind)
    ensures Amounts(cash, ticket, kind) == [amount] ==> PaidOnce(cash, ticket, kind, amount)
  {
    hide PaidOnce, NeverPaid;
    if cash == [] {
      NothingPaid(ticket, kind);
    } else {
      var init, e := cash[..|cash| - 1], cash[|cash| - 1];
      assert cash == init + [e];
      AmountsMean(init, ticket, kind, amount);
      PaidSnoc(init, e, ticket, kind, amount);
      var before := Amounts(init, ticket, kind);
      assert Amounts(cash, ticket, kind) == before + if IsFor(e, ticket, kind) then [e.amount] else [];
      hide Amounts, IsFor;
      if IsFor(e, ticket, kind) {
        if before + [e.amount] == [amount] {
          LastOf(before, e.amount, amount);
        }
      } else {
        assert before + [] == before;
      }
    }
  }

  lemma NothingPaid(ticket: nat, kind: CashKind)
    ensures NeverPaid([], ticket, kind)
  {
  }

  lemma LastOf(init: seq<real>, x: real, y: real)
    requires init + [x] == [y]
    ensures init == [] && x == y
  {
    assert |init + [x]| == 1;
    assert (init + [x])[0] == x;
  }

  /** OF A TICKET: it carries its own hash; its forecast, an entry that did not abstain, is of its portfolio's cohort,
      its market and its rules; its book is its side's of the baseline; its decision names it; it was paid for once,
      at its cost; and it is settled exactly when it has a settlement, and then credited once, with the payout. */
  lemma TicketFacts(t: Tables, k: nat)
    requires AuditClean(t) && k < |t.tickets|
    ensures var row, b := t.tickets[k], t.tickets[k].body;
            && row.hash == TicketHash(b) && b.portfolio in t.portfolios && b.forecast < |t.forecasts|
            && b.policy == t.portfolios[b.portfolio].policy
            && (var f := t.forecasts[b.forecast].body;
                && f.cohort == t.portfolios[b.portfolio].cohort && f.condition == b.condition && f.kind == Entry
                && !f.abstained && f.rulesHash == b.rulesHash)
            && b.forecast in t.baselines && t.baselines[b.forecast].Timely?
            && b.snapshot == (if b.side == YES then t.baselines[b.forecast].yes else t.baselines[b.forecast].no)
            && (b.portfolio, b.forecast) in t.decisions && t.decisions[(b.portfolio, b.forecast)].kind == Traded(k)
            && PaidOnce(t.cash, k, Debit, b.cost)
            && (row.status == SettledTicket <==> k in t.settlements)
            && (k in t.settlements ==> PaidOnce(t.cash, k, Credit, t.settlements[k].payout))
            && (k !in t.settlements ==> NeverPaid(t.cash, k, Credit))
  {
    hide CohortsClean, AllFillsClean, ForecastsClean, OneActive, DecisionsClean, ForeignKeys, ArtifactsClean,
         CashAllClean, Amounts, SettlementClean;
    assert TicketClean(t, k);
    AmountsMean(t.cash, k, Debit, t.tickets[k].body.cost);
    AmountsMean(t.cash, k, Credit, if k in t.settlements then t.settlements[k].payout else 0.0);
  }

  /** OF A SETTLEMENT: it follows from a confirmed and resolved observation of the ticket's market, pays what the held
      side is due, and nets it against the cost. */
  lemma SettlementFacts(t: Tables, k: nat)
    requires AuditClean(t) && k in t.settlements
    ensures k < |t.tickets|
    ensures var s, b := t.settlements[k], t.tickets[k].body;
            && s.observation < |t.observations|
            && (var o := t.observations[s.observation];
                && o.id == s.observation && o.condition == b.condition && o.status == Resolved
                && o.crossCheck == Confirmed && o.outcome == Some(s.outcome))
            && Due(b.side, s.outcome, 1.0, s.payoutPerShare) && Due(b.side, s.outcome, b.shares, s.payout)
            && s.netPnl == s.payout - b.cost
  {
    hide CohortsClean, AllFillsClean, ForecastsClean, OneActive, DecisionsClean, ArtifactsClean, CashAllClean,
         Amounts, BackedByForecast, TradedDecision;
    assert TicketClean(t, k);
  }

  // ---------- fills ----------

  /** The recorded size at that price, the last one where it repeats. */
  ghost predicate Recorded(asks: seq<AskLevel>, price: real, size: real) {
    exists i :: && 0 <= i < |asks| && asks[i].price == price && asks[i].size == size
                && forall j | i < j < |asks| :: asks[j].price != price
  }

  lemma {:induction false} DepthIsRecorded(asks: seq<AskLevel>, price: real)
    requires price in DepthAt(asks)
    ensures Recorded(asks, price, DepthAt(asks)[price])
  {
    var n := |asks| - 1;
    if asks[n].price != price {
      DepthIsRecorded(asks[..n], price);
      var i :| && 0 <= i < n && asks[..n][i].price == price && asks[..n][i].size == DepthAt(asks)[price]
               && forall j | i < j < n :: asks[..n][j].price != price;
      assert asks[i] == asks[..n][i];
      assert forall j | i < j < n :: asks[j] == asks[..n][j];
    }
  }

  /** No two fills share a price, and each takes no more than the book recorded there. */
  ghost predicate FromBook(fills: seq<Fill>, asks: seq<AskLevel>) {
    && fills != [] && (forall i, j | 0 <= i < j < |fills| :: fills[i].price != fills[j].price)
    && forall f | f in fills :: f.shares > 0.0 && exists size :: Recorded(asks, f.price, size) && f.shares <= size
  }

  lemma FromRecordedBook(fills: seq<Fill>, asks: seq<AskLevel>)
    requires WithinRecordedBook(fills, asks)
    ensures FromBook(fills, asks)
  {
    hide DepthAt;
    forall f | f in fills
      ensures f.shares > 0.0 && exists size :: Recorded(asks, f.price, size) && f.shares <= size
    {
      DepthIsRecorded(asks, f.price);
    }
  }

  /** Shares, fee and cost add up at the book's own rate. */
  ghost predicate AddsUp(s: Snapshot, b: TicketBody) {
    && (exists rate :: UsualRate(s, rate) && b.fee == SumOf(b.fills, FillFee(rate)))
    && b.cost == SumOf(b.fills, FillNotional()) + b.fee && b.shares == SumOf(b.fills, FillShares())
  }

  lemma MoneyAddsUp(s: Snapshot, b: TicketBody)
    requires MoneyMatches(s, b)
    ensures AddsUp(s, b)
  {
    assert UsualRate(s, if s.feesEnabled then FeeRate(s.feeSchedule).value else 0.0);
  }

  /** The book was no older than the policy allows, and no fill is dearer than the best ask by more than its
      slippage. */
  ghost predicate AsPolicyAllows(t: Tables, s: Snapshot, b: TicketBody) {
    exists p :: && b.policy in t.artifacts && t.artifacts[b.policy].content == PolicyRecord(p)
                && 0 <= b.createdAt - s.fetchedAt <= p.maxBookAgeSeconds * 1_000_000
                && forall f | f in b.fills :: WithinSlippage(s.asks, f.price, p.maxSlippage)
  }

  lemma PolicyAllowed(t: Tables, s: Snapshot, b: TicketBody)
    requires TicketPolicy(t, b.policy).Some?
    requires UnderSlippage(b.fills, s.asks, TicketPolicy(t, b.policy).value)
    requires BookYoung(s, b, TicketPolicy(t, b.policy).value)
    ensures AsPolicyAllows(t, s, b)
  {
    var p := TicketPolicy(t, b.policy).value;
    assert t.artifacts[b.policy].content == PolicyRecord(p);
    hide WithinSlippage, ValidParams;
    forall f | f in b.fills
      ensures WithinSlippage(s.asks, f.price, p.maxSlippage)
    {
      BestAskSlips(s.asks, f.price, p.maxSlippage);
    }
  }

  /** OF A TICKET'S FILLS: they come from its recorded book, level by level and no deeper, their money adds up at the
      book's rate, and the book's age and the prices paid are as the policy allows. */
  lemma FillFacts(t: Tables, k: nat)
    requires AuditClean(t) && k < |t.tickets|
    ensures var b := t.tickets[k].body;
            && b.snapshot < |t.snapshots|
            && (var s := t.snapshots[b.snapshot]; FromBook(b.fills, s.asks) && AddsUp(s, b) && AsPolicyAllows(t, s, b))
  {
    var b := t.tickets[k].body;
    hide CohortsClean, TicketsClean, ForecastsClean, OneActive, DecisionsClean, ForeignKeys, ArtifactsClean,
         CashAllClean, WithinRecordedBook, MoneyMatches, TicketPolicy, UnderSlippage, BookYoung, FromBook, AddsUp,
         AsPolicyAllows;
    assert FillsClean(t, b);
    var s := t.snapshots[b.snapshot];
    FromRecordedBook(b.fills, s.asks);
    MoneyAddsUp(s, b);
    PolicyAllowed(t, s, b);
  }

  /** The rate of a book with fees is its linear taker rate, and nothing without. */
  predicate UsualRate(s: Snapshot, rate: real) {
    if s.feesEnabled
    then s.feeSchedule.Some? && s.feeSchedule.value.exponent == 1 && s.feeSchedule.value.takerOnly
         && s.feeSchedule.value.rate == Some(rate) && 0.0 <= rate < 1.0
    else rate == 0.0
  }

  /** No dearer than every ask and that fraction of it. */
  predicate WithinSlippage(asks: seq<AskLevel>, price: real, slippage: real) {
    exists l | l in asks :: price <= l.price * (1.0 + slippage) && forall m | m in asks :: l.price <= m.price
  }

  lemma BestAskSlips(asks: seq<AskLevel>, price: real, slippage: real)
    requires asks != [] && price <= BestAsk(asks) * (1.0 + slippage)
    ensures WithinSlippage(asks, price, slippage)
  {
    var l :| l in asks && l.price == BestAsk(asks);
  }
}
