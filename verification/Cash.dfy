/** Per-portfolio virtual cash (src/predict_agent/cash.py): every entry is backed by the record it
    accounts for, and each portfolio's entries form a hash chain. */
module Cash {
  import opened Prelude
  import opened Sums
  import opened Schema

  function Signed(e: CashEntry): real {
    if e.kind == Debit then -e.amount else e.amount
  }

  function SignedAmount(): CashEntry -> real {
    (e: CashEntry) => Signed(e)
  }

  /** The portfolio's entries, in entry order. */
  function CashOf(cash: seq<CashEntry>, portfolio: PortfolioId): (rows: seq<CashEntry>)
  {
    if cash == [] then []
    else CashOf(cash[..|cash| - 1], portfolio) +
         (if cash[|cash| - 1].portfolio == portfolio then [cash[|cash| - 1]] else [])
  }

  lemma CashOfSnoc(cash: seq<CashEntry>, e: CashEntry, portfolio: PortfolioId)
    ensures CashOf(cash + [e], portfolio) ==
            CashOf(cash, portfolio) + (if e.portfolio == portfolio then [e] else [])
  {
    assert (cash + [e])[..|cash|] == cash;
  }

  lemma {:induction false} CashOfMembers(cash: seq<CashEntry>, portfolio: PortfolioId)
    ensures forall e :: e in CashOf(cash, portfolio) <==> e in cash && e.portfolio == portfolio
  {
    if cash != [] {
      CashOfMembers(cash[..|cash| - 1], portfolio);
      assert cash == cash[..|cash| - 1] + [cash[|cash| - 1]];
    }
  }

  function Balance(rows: seq<CashEntry>): real {
    SumOf(rows, SignedAmount())
  }

  function CashBalance(t: Tables, portfolio: PortfolioId): real {
    Balance(CashOf(t.cash, portfolio))
  }

  method AvailableCash(conn: Connection, portfolio: PortfolioId) returns (total: real)
    ensures total == CashBalance(conn.db, portfolio)
  {
    var rows := CashOf(conn.db.cash, portfolio);
    total := 0.0;
    for i := 0 to |rows|
      invariant total == Balance(rows[..i])
    {
      SumPrefix(rows, i, SignedAmount());
      total := total + Signed(rows[i]);
    }
    assert rows[..|rows|] == rows;
  }

  function Head(rows: seq<CashEntry>): CashDigest {
    if rows == [] then Genesis else rows[|rows| - 1].hash
  }

  predicate HasEntry(cash: seq<CashEntry>, ticket: nat, kind: CashKind) {
    exists e | e in cash :: e.ticket == Some(ticket) && e.kind == kind
  }

  /** Why an entry is not backed by a record, if it is not. */
  function BackingError(t: Tables, portfolio: PortfolioId, kind: CashKind, amount: real, ticket: Option<nat>)
    : Option<LedgerError>
  {
    if portfolio !in t.portfolios then Some(UnknownPortfolio)
    else if kind == Funding then
      if ticket.Some? then Some(WrongBacking)
      else if CashOf(t.cash, portfolio) != [] then Some(AlreadyFunded)
      else if amount != t.portfolios[portfolio].bankroll then Some(WrongBacking)
      else None
    else if ticket.None? then Some(WrongBacking)
    else if ticket.value >= |t.tickets| then Some(UnknownTicket)
    else
      var row := t.tickets[ticket.value];
      if row.body.portfolio != portfolio then Some(WrongBacking)
      else if HasEntry(t.cash, ticket.value, kind) then Some(WrongBacking)
      else if kind == Debit then
        if row.status != OpenTicket || amount != row.body.cost then Some(WrongBacking) else None
      else if ticket.value !in t.settlements then Some(WrongBacking)
      else if amount != t.settlements[ticket.value].payout then Some(WrongBacking)
      else None
  }

  function NextEntry(t: Tables, portfolio: PortfolioId, kind: CashKind, amount: real, ticket: Option<nat>, now: int)
    : CashEntry
  {
    CashEntry(portfolio, kind, amount, ticket, now,
              CashHash(portfolio, kind, amount, ticket, now, Head(CashOf(t.cash, portfolio))))
  }

  /** The tables after appending one backed entry, or why it is refused. */
  function EntryAppended(t: Tables, portfolio: PortfolioId, kind: CashKind, amount: real, ticket: Option<nat>, now: int)
    : Result<Tables, LedgerError>
  {
    if amount < 0.0 || (kind == Funding && amount == 0.0) then Err(InvalidAmount)
    else match BackingError(t, portfolio, kind, amount, ticket)
      case Some(error) => Err(error)
      case None =>
        if kind == Debit && CashBalance(t, portfolio) < amount then Err(InsufficientCash)
        else Ok(t.(cash := t.cash + [NextEntry(t, portfolio, kind, amount, ticket, now)]))
  }

  method AppendCashEntry(conn: Connection, portfolio: PortfolioId, kind: CashKind, amount: real, ticket: Option<nat>,
                         now: int)
    returns (result: Result<nat, LedgerError>)
    modifies conn
    ensures match EntryAppended(old(conn.db), portfolio, kind, amount, ticket, now)
            case Ok(t) => conn.db == t && result == Ok(|old(conn.db).cash|)
            case Err(error) => conn.db == old(conn.db) && result == Err(error)
  {
    if amount < 0.0 || (kind == Funding && amount == 0.0) {
      return Err(InvalidAmount);
    }
    var error := BackingError(conn.db, portfolio, kind, amount, ticket);
    if error.Some? {
      return Err(error.value);
    }
    if kind == Debit {
      var available := AvailableCash(conn, portfolio);
      if available < amount {
        return Err(InsufficientCash);
      }
    }
    var prev := Head(CashOf(conn.db.cash, portfolio));
    var hash := CashHash(portfolio, kind, amount, ticket, now, prev);
    result := Ok(|conn.db.cash|);
    conn.db := conn.db.(cash := conn.db.cash + [CashEntry(portfolio, kind, amount, ticket, now, hash)]);
  }

  /** WHICH ENTRIES ARE ACCEPTED: a portfolio's positive bankroll once, before anything else; the cost of its own open
      ticket once, within its cash; and the payout of its own settled ticket once. */
  lemma AppendsIff(t: Tables, p: PortfolioId, kind: CashKind, amount: real, ticket: Option<nat>, now: int)
    ensures EntryAppended(t, p, kind, amount, ticket, now).Ok? <==>
            && p in t.portfolios && amount >= 0.0
            && match kind
               case Funding =>
                 && ticket == None && amount == t.portfolios[p].bankroll > 0.0
                 && forall e | e in t.cash :: e.portfolio != p
               case Debit =>
                 && OwnTicket(t, p, ticket) && t.tickets[ticket.value].status == OpenTicket
                 && amount == t.tickets[ticket.value].body.cost && amount <= CashBalance(t, p)
                 && forall e | e in t.cash && e.kind == Debit :: e.ticket != ticket
               case Credit =>
                 && OwnTicket(t, p, ticket) && ticket.value in t.settlements
                 && amount == t.settlements[ticket.value].payout
                 && forall e | e in t.cash && e.kind == Credit :: e.ticket != ticket
  {
    CashOfMembers(t.cash, p);
    hide CashOf, CashBalance;
    if CashOf(t.cash, p) != [] {
      assert CashOf(t.cash, p)[0] in CashOf(t.cash, p);
    }
  }

  predicate OwnTicket(t: Tables, p: PortfolioId, ticket: Option<nat>) {
    ticket.Some? && ticket.value < |t.tickets| && t.tickets[ticket.value].body.portfolio == p
  }

  /** WHAT AN ACCEPTED ENTRY DOES to the cash: funding and credits add, debits subtract, and no other portfolio's
      cash changes. */
  lemma AppendedBalance(t: Tables, p: PortfolioId, kind: CashKind, amount: real, ticket: Option<nat>, now: int,
                        other: PortfolioId)
    requires EntryAppended(t, p, kind, amount, ticket, now).Ok?
    ensures CashBalance(EntryAppended(t, p, kind, amount, ticket, now).value, other) ==
            CashBalance(t, other) + if other != p then 0.0 else if kind == Debit then -amount else amount
  {
    var e := NextEntry(t, p, kind, amount, ticket, now);
    assert EntryAppended(t, p, kind, amount, ticket, now).value.cash == t.cash + [e];
    hide EntryAppended, BackingError;
    CashOfSnoc(t.cash, e, other);
    SumSnoc(CashOf(t.cash, other), e, SignedAmount());
    assert CashOf(t.cash, other) + [] == CashOf(t.cash, other);
  }

  // ---------- the chain ----------

  /** Every row carries the digest of its own columns and of the row before it. */
  ghost predicate Chained(rows: seq<CashEntry>, portfolio: PortfolioId) {
    forall i | 0 <= i < |rows| ::
      rows[i].hash == CashHash(portfolio, rows[i].kind, rows[i].amount, rows[i].ticket, rows[i].at, Head(rows[..i]))
  }

  lemma ChainedSnoc(rows: seq<CashEntry>, e: CashEntry, portfolio: PortfolioId)
    requires Chained(rows, portfolio)
    requires e.hash == CashHash(portfolio, e.kind, e.amount, e.ticket, e.at, Head(rows))
    ensures Chained(rows + [e], portfolio)
  {
    var all := rows + [e];
    forall i | 0 <= i < |all|
      ensures all[i].hash == CashHash(portfolio, all[i].kind, all[i].amount, all[i].ticket, all[i].at, Head(all[..i]))
    {
      assert all[..i] == rows[..i];
      if i == |rows| {
        assert rows[..i] == rows;
      }
    }
  }

  lemma ChainedInit(rows: seq<CashEntry>, portfolio: PortfolioId)
    requires rows != [] && Chained(rows, portfolio)
    ensures var init, last := rows[..|rows| - 1], rows[|rows| - 1];
            && rows == init + [last] && Chained(init, portfolio)
            && Head(rows) == CashHash(portfolio, last.kind, last.amount, last.ticket, last.at, Head(init))
  {
    var init := rows[..|rows| - 1];
    forall i | 0 <= i < |init|
      ensures init[i].hash == CashHash(portfolio, init[i].kind, init[i].amount, init[i].ticket, init[i].at,
                                       Head(init[..i]))
    {
      assert init[..i] == rows[..i];
    }
  }

  /** TAMPER EVIDENCE: two chains the auditor accepts for a portfolio and that end in the same digest
      are the same entries in the same order, although the previous digest is never stored. */
  lemma {:induction false} SameHeadSameChain(rows: seq<CashEntry>, other: seq<CashEntry>, portfolio: PortfolioId)
    requires Chained(rows, portfolio) && Chained(other, portfolio) && Head(rows) == Head(other)
    requires forall e | e in rows :: e.portfolio == portfolio
    requires forall e | e in other :: e.portfolio == portfolio
    ensures rows == other
    decreases |rows|
  {
    if rows != [] {
      ChainedInit(rows, portfolio);
    }
    if other != [] {
      ChainedInit(other, portfolio);
    }
    if rows != [] && other != [] {
      SameHeadSameChain(rows[..|rows| - 1], other[..|other| - 1], portfolio);
    }
  }
}
