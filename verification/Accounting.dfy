/** What a clean audit means: for every portfolio, cash plus the cost of open tickets is the starting
    bankroll plus the net result of its settled tickets. Derived from the auditor's own per-entry and
    per-ticket checks and the schema's row constraints, with no reference to the code that wrote the
    rows: the portfolio's cash entries have to be regrouped ticket by ticket. */
module Accounting {
  import opened Prelude
  import opened Sums
  import opened Schema
  import opened Cash
  import opened Tickets
  import opened Invariants

  function Unticketed(): CashEntry -> real {
    (e: CashEntry) => if e.ticket.None? then Signed(e) else 0.0
  }

  function ForTicket(k: nat): CashEntry -> real {
    (e: CashEntry) => if e.ticket == Some(k) then Signed(e) else 0.0
  }

  /** Net cash the rows move for each ticket. */
  function FlowOf(rows: seq<CashEntry>): nat -> real {
    (k: nat) => SumOf(rows, ForTicket(k))
  }

  /** Regrouping: a balance is its unticketed part plus, for every ticket, that ticket's flow. */
  lemma {:induction false} Regroup(rows: seq<CashEntry>, n: nat)
    requires forall e | e in rows :: e.ticket.Some? ==> e.ticket.value < n
    ensures Balance(rows) == SumOf(rows, Unticketed()) + SumTo(n, FlowOf(rows))
  {
    if rows == [] {
      SumToZero(n, FlowOf(rows));
    } else {
      var init, last := rows[..|rows| - 1], rows[|rows| - 1];
      assert rows == init + [last];
      Regroup(init, n);
      SumSnoc(init, last, SignedAmount());
      SumSnoc(init, last, Unticketed());
      forall k: nat | k < n
        ensures FlowOf(rows)(k) == FlowOf(init)(k) + ForTicket(k)(last)
      {
        SumSnoc(init, last, ForTicket(k));
      }
      if last.ticket.Some? {
        SumToPoint(n, FlowOf(init), FlowOf(rows), last.ticket.value, Signed(last));
      } else {
        SumToPoint(n, FlowOf(init), FlowOf(rows), n, 0.0);
      }
    }
  }

  function Itself(): real -> real { (x: real) => x }

  /** A ticket's flow is its credits less its debits, whoever's entries they are, when all of them
      belong to its portfolio. */
  lemma {:induction false} FlowIsCreditsLessDebits(cash: seq<CashEntry>, p: PortfolioId, k: nat)
    requires forall e | e in cash && e.ticket == Some(k) :: e.portfolio == p && e.kind != Funding
    ensures SumOf(CashOf(cash, p), ForTicket(k)) ==
            SumOf(Amounts(cash, k, Credit), Itself()) - SumOf(Amounts(cash, k, Debit), Itself())
  {
    if cash != [] {
      var init, last := cash[..|cash| - 1], cash[|cash| - 1];
      assert cash == init + [last] && last in cash;
      FlowIsCreditsLessDebits(init, p, k);
      CashOfSnoc(init, last, p);
      SumSnoc(CashOf(init, p), last, ForTicket(k));
      SumSnoc(Amounts(init, k, Credit), last.amount, Itself());
      SumSnoc(Amounts(init, k, Debit), last.amount, Itself());
      assert Amounts(init, k, Credit) + [] == Amounts(init, k, Credit);
      assert Amounts(init, k, Debit) + [] == Amounts(init, k, Debit);
      assert CashOf(init, p) + [] == CashOf(init, p);
    }
  }

  /** Net result of the portfolio's settled tickets. */
  function NetPnl(t: Tables, p: PortfolioId): nat -> real {
    (k: nat) => if k < |t.tickets| && t.tickets[k].body.portfolio == p && k in t.settlements
                then t.settlements[k].netPnl else 0.0
  }

  function OpenPart(t: Tables, p: PortfolioId): nat -> real {
    (k: nat) => if k < |t.tickets| then OpenCostOf(t.tickets[k], p) else 0.0
  }

  lemma FundingPart(rows: seq<CashEntry>, bankroll: real)
    requires FundedOnceFirst(rows, bankroll)
    requires forall e | e in rows :: e.kind == Funding <==> e.ticket.None?
    ensures SumOf(rows, Unticketed()) == bankroll
  {
    forall e | e in rows[1..]
      ensures Unticketed()(e) == 0.0
    {
      var i :| 0 <= i < |rows[1..]| && rows[1..][i] == e;
      assert rows[i + 1] == e && e in rows && rows[i + 1].kind != Funding;
    }
    SumZero(rows[1..], Unticketed());
    assert rows[0] in rows;
    assert SumOf(rows, Unticketed()) == Unticketed()(rows[0]) + SumOf(rows[1..], Unticketed());
  }

  /** The auditor's per-ticket checks, as far as money goes. */
  ghost predicate TicketMoney(t: Tables, k: nat)
    requires k < |t.tickets|
  {
    && Amounts(t.cash, k, Debit) == [t.tickets[k].body.cost]
    && if k in t.settlements then
         && t.tickets[k].status == SettledTicket
         && Amounts(t.cash, k, Credit) == [t.settlements[k].payout]
         && t.settlements[k].netPnl == t.settlements[k].payout - t.tickets[k].body.cost
       else t.tickets[k].status == OpenTicket && Amounts(t.cash, k, Credit) == []
  }

  /** The per-entry and per-ticket checks the identity rests on. */
  ghost predicate MoneyClean(t: Tables) {
    && CashChecked(t)
    && (forall e | e in t.cash :: e.portfolio in t.portfolios && OwnsEntry(t, e.portfolio, e))
    && (forall p | p in t.portfolios :: FundedOnceFirst(CashOf(t.cash, p), t.portfolios[p].bankroll))
    && (forall k: nat | k < |t.tickets| :: TicketMoney(t, k))
  }

  lemma TicketCleanMoney(t: Tables, k: nat)
    requires k < |t.tickets| && TicketClean(t, k)
    ensures TicketMoney(t, k)
  {
  }

  lemma AuditCleanMoney(t: Tables)
    requires AuditClean(t) && CashChecked(t)
    ensures MoneyClean(t)
  {
    forall e | e in t.cash
      ensures e.portfolio in t.portfolios && OwnsEntry(t, e.portfolio, e)
    {
      assert CashClean(t, e.portfolio);
      CashOfMembers(t.cash, e.portfolio);
    }
    forall p | p in t.portfolios
      ensures FundedOnceFirst(CashOf(t.cash, p), t.portfolios[p].bankroll)
    {
      assert CashClean(t, p);
    }
    forall k: nat | k < |t.tickets|
      ensures TicketMoney(t, k)
    {
      assert TicketClean(t, k);
      TicketCleanMoney(t, k);
    }
  }

  lemma Single(x: real)
    ensures SumOf([x], Itself()) == x
  {
  }

  /** One ticket's share of the identity. */
  lemma TicketBalances(t: Tables, p: PortfolioId, k: nat)
    requires MoneyClean(t) && k < |t.tickets|
    ensures FlowOf(CashOf(t.cash, p))(k) + OpenPart(t, p)(k) == NetPnl(t, p)(k)
  {
    assert TicketMoney(t, k);
    if t.tickets[k].body.portfolio == p {
      FlowIsCreditsLessDebits(t.cash, p, k);
      Single(t.tickets[k].body.cost);
      if k in t.settlements {
        Single(t.settlements[k].payout);
      }
    } else {
      CashOfMembers(t.cash, p);
      SumZero(CashOf(t.cash, p), ForTicket(k));
    }
  }

  lemma MoneyCleanBalances(t: Tables, p: PortfolioId)
    requires MoneyClean(t) && p in t.portfolios
    ensures CashBalance(t, p) + OpenCost(t, p) == t.portfolios[p].bankroll + SumTo(|t.tickets|, NetPnl(t, p))
  {
    var rows := CashOf(t.cash, p);
    CashOfMembers(t.cash, p);
    FundingPart(rows, t.portfolios[p].bankroll);
    Regroup(rows, |t.tickets|);
    forall k: nat | k < |t.tickets|
      ensures NetPnl(t, p)(k) == FlowOf(rows)(k) + OpenPart(t, p)(k)
    {
      TicketBalances(t, p, k);
    }
    SumToAdd(|t.tickets|, FlowOf(rows), OpenPart(t, p), NetPnl(t, p));
    SumOfIndices(t.tickets, OpenCostIn(p), OpenPart(t, p), |t.tickets|);
    assert t.tickets[..|t.tickets|] == t.tickets;
  }

  /** THE ACCOUNTING IDENTITY. */
  lemma CleanAuditBalances(t: Tables, p: PortfolioId)
    requires AuditClean(t) && CashChecked(t) && p in t.portfolios
    ensures CashBalance(t, p) + OpenCost(t, p) == t.portfolios[p].bankroll + SumTo(|t.tickets|, NetPnl(t, p))
  {
    AuditCleanMoney(t);
    MoneyCleanBalances(t, p);
  }
}
