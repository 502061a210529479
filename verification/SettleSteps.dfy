/** Settling a ticket keeps the ledger audit-clean, and never raises on a ledger that is. */
module SettleSteps {
  import opened Prelude
  import opened PolicyParams
  import opened Settlement
  import opened Schema
  import opened Cash
  import opened Settling
  import opened Invariants
  import opened Steps
  import opened Growth
  import opened Reachability

  function SettledWith(t: Tables, k: nat, s: SettlementRow, credit: CashEntry): Tables
    requires k < |t.tickets|
  {
    t.(settlements := t.settlements[k := s],
       tickets := t.tickets[k := t.tickets[k].(status := SettledTicket)],
       cash := t.cash + [credit])
  }

  /** An open ticket, the confirmed observation that resolves it and the credit that pays it. */
  ghost predicate Resolves(t: Tables, k: nat, s: SettlementRow, credit: CashEntry) {
    && k < |t.tickets| && t.tickets[k].status == OpenTicket && k !in t.settlements
    && SettlementClean(t, t.tickets[k].body, s)
    && t.tickets[k].body.portfolio in t.portfolios
    && s.payout >= 0.0
    && credit == NextEntry(t, t.tickets[k].body.portfolio, Credit, s.payout, Some(k), s.at)
  }

  /** Each row's id is its position. */
  ghost predicate Numbered(rows: seq<Observation>) {
    forall i | 0 <= i < |rows| :: rows[i].id == i
  }

  lemma GoverningIsRecorded(t: Tables, condition: string)
    requires Numbered(t.observations)
    ensures var (g, ambiguous) := Governing(ObservationsOf(t.observations, condition));
            PendingReason(g, ambiguous) == None ==>
              && g.Some? && g.value.id < |t.observations| && t.observations[g.value.id] == g.value
              && g.value.condition == condition && g.value.status == Resolved && g.value.crossCheck == Confirmed
              && g.value.outcome.Some? && Settleable(g.value.outcome.value)
  {
  }

  lemma PayoutNonNegative(shares: real, held: Side, outcome: Outcome)
    requires Settleable(outcome) && shares >= 0.0
    ensures 0.0 <= shares * PayoutPerShare(held, outcome) <= shares
  {
  }

  lemma SettledShape(t: Tables, k: nat, now: int) returns (s: SettlementRow, credit: CashEntry)
    requires Numbered(t.observations) && k < |t.tickets| && t.tickets[k].body.shares >= 0.0
    requires TicketSettled(t, k, now).Ok? && TicketSettled(t, k, now).value.1 == SettledNow
    ensures Resolves(t, k, s, credit)
    ensures TicketSettled(t, k, now).value.0 == SettledWith(t, k, s, credit)
  {
    hide PayoutPerShare, Governing, PendingReason, HasEntry;
    var body := t.tickets[k].body;
    GoverningIsRecorded(t, body.condition);
    var g := Governing(ObservationsOf(t.observations, body.condition)).0.value;
    s := SettlementOf(body, g.id, g.outcome.value, now);
    credit := NextEntry(t, body.portfolio, Credit, s.payout, Some(k), now);
    PayoutNonNegative(body.shares, body.side, g.outcome.value);
  }

  lemma SettledExtends(t: Tables, k: nat, s: SettlementRow, credit: CashEntry)
    requires Resolves(t, k, s, credit)
    ensures Extends(t, SettledWith(t, k, s, credit))
  {
    hide SettlementClean;
  }

  lemma SettledForeignKeys(t: Tables, k: nat, s: SettlementRow, credit: CashEntry)
    requires Resolves(t, k, s, credit) && ForeignKeys(t)
    ensures ForeignKeys(SettledWith(t, k, s, credit))
  {
    hide SettlementClean;
  }

  lemma SettledCash(t: Tables, k: nat, s: SettlementRow, credit: CashEntry)
    requires Resolves(t, k, s, credit) && CashAllClean(t)
    ensures CashAllClean(SettledWith(t, k, s, credit))
  {
    hide SettlementClean;
    var t' := SettledWith(t, k, s, credit);
    SettledExtends(t, k, s, credit);
    forall p | p in t'.portfolios
      ensures CashClean(t', p)
    {
      CashOfSnoc(t.cash, credit, p);
      if p == credit.portfolio {
        BalanceNonNegative(t, p);
        CashExtended(t, t', p, credit);
      } else {
        assert CashOf(t.cash, p) + [] == CashOf(t.cash, p);
        CashKept(t, t', p);
      }
    }
  }

  lemma BalanceNonNegative(t: Tables, p: PortfolioId)
    requires p in t.portfolios && CashClean(t, p)
    ensures CashBalance(t, p) >= 0.0
  {
    var rows := CashOf(t.cash, p);
    assert rows[..|rows|] == rows;
  }

  lemma SettledTicketClean(t: Tables, k: nat, s: SettlementRow, credit: CashEntry)
    requires Resolves(t, k, s, credit) && TicketClean(t, k)
    ensures TicketClean(SettledWith(t, k, s, credit), k)
  {
    hide SettlementClean, BackedByForecast, Extends;
    var t' := SettledWith(t, k, s, credit);
    SettledExtends(t, k, s, credit);
    BackingKept(t, t', t.tickets[k].body);
    SettlementKept(t, t', t.tickets[k].body, s);
    AmountsSnoc(t.cash, credit, k, Debit);
    AmountsSnoc(t.cash, credit, k, Credit);
    assert Amounts(t.cash, k, Debit) + [] == Amounts(t.cash, k, Debit);
  }

  lemma SettledOther(t: Tables, k: nat, s: SettlementRow, credit: CashEntry, j: nat)
    requires Resolves(t, k, s, credit) && j < |t.tickets| && j != k && TicketClean(t, j)
    ensures TicketClean(SettledWith(t, k, s, credit), j)
  {
    hide SettlementClean, BackedByForecast, Extends;
    SettledExtends(t, k, s, credit);
    AmountsSnoc(t.cash, credit, j, Debit);
    AmountsSnoc(t.cash, credit, j, Credit);
    assert Amounts(t.cash, j, Debit) + [] == Amounts(t.cash, j, Debit);
    assert Amounts(t.cash, j, Credit) + [] == Amounts(t.cash, j, Credit);
    TicketKept(t, SettledWith(t, k, s, credit), j);
  }

  lemma SettledTickets(t: Tables, k: nat, s: SettlementRow, credit: CashEntry)
    requires Resolves(t, k, s, credit) && TicketsClean(t)
    ensures TicketsClean(SettledWith(t, k, s, credit))
  {
    var t' := SettledWith(t, k, s, credit);
    forall j: nat | j < |t'.tickets|
      ensures TicketClean(t', j)
    {
      hide TicketClean, Resolves;
      if j == k {
        SettledTicketClean(t, k, s, credit);
      } else {
        SettledOther(t, k, s, credit, j);
      }
    }
  }

  lemma SettledSupported(t: Tables, k: nat, s: SettlementRow, credit: CashEntry)
    requires Resolves(t, k, s, credit) && Supported(t)
    ensures Supported(SettledWith(t, k, s, credit))
  {
    hide SettlementClean;
  }

  lemma SettledAudit(t: Tables, k: nat, s: SettlementRow, credit: CashEntry)
    requires AuditClean(t) && Resolves(t, k, s, credit)
    ensures AuditClean(SettledWith(t, k, s, credit))
  {
    hide SettlementClean, CohortsClean, CashAllClean, ForecastsClean, TicketsClean, AllFillsClean, DecisionsClean,
         Extends;
    var t' := SettledWith(t, k, s, credit);
    SettledExtends(t, k, s, credit);
    SettledForeignKeys(t, k, s, credit);
    SettledCash(t, k, s, credit);
    SettledTickets(t, k, s, credit);
    CohortsKept(t, t');
    ForecastsKept(t, t', |t.forecasts|);
    AllFillsKept(t, t');
    DecisionsKept(t, t');
  }

  lemma SettleInv(t: Tables, k: nat, now: int)
    requires Inv(t) && k < |t.tickets| && TicketSettled(t, k, now).Ok?
    ensures Inv(TicketSettled(t, k, now).value.0)
  {
    hide AuditClean, TicketSettled;
    if TicketSettled(t, k, now).value.1 == SettledNow {
      var s, credit := SettledShape(t, k, now);
      SettledAudit(t, k, s, credit);
      SettledSupported(t, k, s, credit);
    } else {
      UnsettledSame(t, k, now);
    }
  }

  lemma UnsettledSame(t: Tables, k: nat, now: int)
    requires k < |t.tickets| && TicketSettled(t, k, now).Ok? && TicketSettled(t, k, now).value.1 != SettledNow
    ensures TicketSettled(t, k, now).value.0 == t
  {
  }

  /** SETTLING NEVER RAISES on a reachable ledger, and settles exactly the open tickets whose market
      has a final outcome. */
  lemma SettlesExactly(t: Tables, k: nat, now: int)
    requires Inv(t) && k < |t.tickets|
    ensures TicketSettled(t, k, now).Ok?
    ensures TicketSettled(t, k, now).value.1 == SettledNow <==>
            t.tickets[k].status == OpenTicket && MarketOutcome(t, t.tickets[k].body.condition).Some?
  {
    assert TicketClean(t, k);
    var body := t.tickets[k].body;
    assert t.tickets[k].status == OpenTicket ==> k !in t.settlements;
    if t.tickets[k].status == OpenTicket {
      AmountsSome(t.cash, k, Credit);
      GoverningIsRecorded(t, body.condition);
      CreditAccepted(t, k, now);
    }
  }

  lemma CreditAccepted(t: Tables, k: nat, now: int)
    requires k < |t.tickets| && t.tickets[k].status == OpenTicket && k !in t.settlements
    requires t.tickets[k].body.portfolio in t.portfolios && t.tickets[k].body.shares >= 0.0
    requires !HasEntry(t.cash, k, Credit)
    ensures TicketSettled(t, k, now).Ok?
    ensures TicketSettled(t, k, now).value.1 == SettledNow <==> MarketOutcome(t, t.tickets[k].body.condition).Some?
  {
    hide PayoutPerShare, Governing;
    var body := t.tickets[k].body;
    var (g, ambiguous) := Governing(ObservationsOf(t.observations, body.condition));
    if PendingReason(g, ambiguous) == None {
      PayoutNonNegative(body.shares, body.side, g.value.outcome.value);
      var s := SettlementOf(body, g.value.id, g.value.outcome.value, now);
      var inserted := SettlementInserted(t, k, s);
      assert BackingError(inserted, body.portfolio, Credit, s.payout, Some(k)) == None;
    }
  }
}
