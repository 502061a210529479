/** Settling open paper tickets from official resolutions (src/predict_agent/settlement.py:141-213). */
module Settling {
  import opened Prelude
  import opened PolicyParams
  import opened Settlement
  import opened Schema
  import opened Cash

  /** The market's observations, in id order. */
  function ObservationsOf(rows: seq<Observation>, condition: string): (r: seq<Observation>)
    ensures forall o :: o in r <==> o in rows && o.condition == condition
  {
    if rows == [] then []
    else (if rows[0].condition == condition then [rows[0]] else []) + ObservationsOf(rows[1..], condition)
  }

  function MarketOutcome(t: Tables, condition: string): Option<Outcome> {
    FinalOutcome(ObservationsOf(t.observations, condition))
  }

  function SettlementOf(body: TicketBody, observation: nat, outcome: Outcome, now: int): SettlementRow
    requires Settleable(outcome)
  {
    var perShare := PayoutPerShare(body.side, outcome);
    var payout := body.shares * perShare;
    SettlementRow(observation, outcome, perShare, payout, payout - body.cost, now)
  }

  function SettlementInserted(t: Tables, ticket: nat, row: SettlementRow): Tables
    requires ticket < |t.tickets|
  {
    t.(settlements := t.settlements[ticket := row],
       tickets := t.tickets[ticket := t.tickets[ticket].(status := SettledTicket)])
  }

  datatype Fate = AlreadySettled | Waiting(reason: Pending) | SettledNow

  /** One ticket's settlement transaction; an error commits nothing. */
  function TicketSettled(t: Tables, ticket: nat, now: int): Result<(Tables, Fate), LedgerError>
    requires ticket < |t.tickets|
  {
    var row := t.tickets[ticket];
    if row.status != OpenTicket then Ok((t, AlreadySettled))
    else
      var (g, ambiguous) := Governing(ObservationsOf(t.observations, row.body.condition));
      var reason := PendingReason(g, ambiguous);
      if reason.Some? then Ok((t, Waiting(reason.value)))
      else if ticket in t.settlements then Err(WrongBacking)
      else
        var settlement := SettlementOf(row.body, g.value.id, g.value.outcome.value, now);
        var inserted := SettlementInserted(t, ticket, settlement);
        match EntryAppended(inserted, row.body.portfolio, Credit, settlement.payout, Some(ticket), now)
        case Err(error) => Err(error)
        case Ok(after) => Ok((after, SettledNow))
  }

  /** What a holder of this many shares of a side is due. */
  ghost predicate Due(held: Side, outcome: Outcome, shares: real, amount: real) {
    match outcome
    case OutYes => amount == if held == YES then shares else 0.0
    case OutNo => amount == if held == YES then 0.0 else shares
    case OutHalf => amount == shares / 2.0
    case OutUnknown => false
  }

  /** WHAT SETTLING PAYS: one credit to the ticket's portfolio, of all the shares where the held side is the market's
      outcome, none where it is the other, and half on a half; the settlement says so, with the result net of the
      ticket's cost and the governing observation. */
  lemma SettlingPays(t: Tables, ticket: nat, now: int)
    requires ticket < |t.tickets| && TicketSettled(t, ticket, now).Ok?
    requires TicketSettled(t, ticket, now).value.1 == SettledNow
    ensures var after, body := TicketSettled(t, ticket, now).value.0, t.tickets[ticket].body;
            var observations := ObservationsOf(t.observations, body.condition);
            && |after.cash| == |t.cash| + 1 && t.cash == after.cash[..|t.cash|] && ticket in after.settlements
            && (var credit, row := after.cash[|t.cash|], after.settlements[ticket];
                && credit.portfolio == body.portfolio && credit.kind == Credit && credit.ticket == Some(ticket)
                && FinalOutcome(observations) == Some(row.outcome)
                && Due(body.side, row.outcome, body.shares, credit.amount)
                && Due(body.side, row.outcome, 1.0, row.payoutPerShare)
                && row.payout == credit.amount && row.netPnl == credit.amount - body.cost && row.at == now == credit.at
                && Governing(observations).0.Some? && row.observation == Governing(observations).0.value.id)
            && after.observations == t.observations
            && after.tickets == t.tickets[ticket := t.tickets[ticket].(status := SettledTicket)]
  {
    hide Governing, HasEntry;
  }

  /** A YES and a NO holding of equal shares together receive exactly those shares. */
  lemma HoldersShareTheShares(t: Tables, a: nat, b: nat, now: int)
    requires a < |t.tickets| && b < |t.tickets| && a != b
    requires var x, y := t.tickets[a].body, t.tickets[b].body;
             x.condition == y.condition && x.side != y.side && x.shares == y.shares
    requires TicketSettled(t, a, now).Ok? && TicketSettled(t, a, now).value.1 == SettledNow
    requires var t1 := TicketSettled(t, a, now).value.0;
             && b < |t1.tickets| && TicketSettled(t1, b, now).Ok?
             && TicketSettled(t1, b, now).value.1 == SettledNow
    ensures var after := TicketSettled(TicketSettled(t, a, now).value.0, b, now).value.0;
            && |after.cash| == |t.cash| + 2
            && after.cash[|t.cash|].amount + after.cash[|t.cash| + 1].amount == t.tickets[a].body.shares
  {
    SettlingPays(t, a, now);
    var t1 := TicketSettled(t, a, now).value.0;
    SettlingPays(t1, b, now);
    hide TicketSettled, FinalOutcome, ObservationsOf;
    var after := TicketSettled(t1, b, now).value.0;
    assert after.cash[..|t1.cash|][|t.cash|] == after.cash[|t.cash|];
    assert t1.tickets[b].body == t.tickets[b].body;
  }

  method SettleTicket(conn: Connection, ticket: nat, now: int) returns (result: Result<Fate, LedgerError>)
    requires ticket < |conn.db.tickets|
    modifies conn
    ensures match TicketSettled(old(conn.db), ticket, now)
            case Ok((t, fate)) => conn.db == t && result == Ok(fate)
            case Err(error) => conn.db == old(conn.db) && result == Err(error)
  {
    var row := conn.db.tickets[ticket];
    if row.status != OpenTicket {
      return Ok(AlreadySettled);
    }
    var (g, ambiguous) := Governing(ObservationsOf(conn.db.observations, row.body.condition));
    var reason := PendingReason(g, ambiguous);
    if reason.Some? {
      return Ok(Waiting(reason.value));
    }
    if ticket in conn.db.settlements {
      return Err(WrongBacking);
    }
    var began := conn.db;
    var settlement := SettlementOf(row.body, g.value.id, g.value.outcome.value, now);
    conn.db := SettlementInserted(conn.db, ticket, settlement);
    var credited := AppendCashEntry(conn, row.body.portfolio, Credit, settlement.payout, Some(ticket), now);
    if credited.Err? {
      conn.db := began;
      return Err(credited.error);
    }
    result := Ok(SettledNow);
  }

  /** Ids of the OPEN tickets, in id order. */
  function OpenIds(tickets: seq<Ticket>): (ids: seq<nat>)
    ensures forall i | 0 <= i < |ids| :: ids[i] < |tickets|
  {
    if tickets == [] then []
    else
      OpenIds(tickets[..|tickets| - 1]) +
      (if tickets[|tickets| - 1].status == OpenTicket then [|tickets| - 1] else [])
  }

  predicate KnownIds(t: Tables, ids: seq<nat>) {
    forall i | 0 <= i < |ids| :: ids[i] < |t.tickets|
  }

  lemma SettledKeepsTickets(t: Tables, ticket: nat, now: int)
    requires ticket < |t.tickets| && TicketSettled(t, ticket, now).Ok?
    ensures |TicketSettled(t, ticket, now).value.0.tickets| == |t.tickets|
  {
  }

  /** How many tickets a sweep settled, and which wait for what. */
  datatype Summary = Summary(settled: nat, pending: seq<(nat, Pending)>)

  function Counted(summary: Summary, ticket: nat, fate: Fate): Summary {
    match fate
    case AlreadySettled => summary
    case Waiting(reason) => summary.(pending := summary.pending + [(ticket, reason)])
    case SettledNow => summary.(settled := summary.settled + 1)
  }

  /** What a sweep does after `summary`: one transaction per ticket, in order, stopping at the first error. */
  function Swept(t: Tables, ids: seq<nat>, summary: Summary, now: int): (r: (Tables, Summary, Option<LedgerError>))
    requires KnownIds(t, ids)
    decreases |ids|
  {
    if ids == [] then (t, summary, None)
    else
      var result := TicketSettled(t, ids[0], now);
      if result.Err? then (t, summary, Some(result.error))
      else
        SettledKeepsTickets(t, ids[0], now);
        Swept(result.value.0, ids[1..], Counted(summary, ids[0], result.value.1), now)
  }

  lemma SweepTurn(t: Tables, ids: seq<nat>, i: nat, summary: Summary, now: int)
    requires KnownIds(t, ids) && i < |ids|
    ensures var result := TicketSettled(t, ids[i], now);
            if result.Err? then Swept(t, ids[i..], summary, now) == (t, summary, Some(result.error))
            else
              && KnownIds(result.value.0, ids)
              && Swept(t, ids[i..], summary, now) ==
                 Swept(result.value.0, ids[i + 1..], Counted(summary, ids[i], result.value.1), now)
  {
    assert ids[i..][0] == ids[i] && ids[i..][1..] == ids[i + 1..];
    if TicketSettled(t, ids[i], now).Ok? {
      SettledKeepsTickets(t, ids[i], now);
    }
  }

  method SettleOpenTickets(conn: Connection, now: int)
    returns (settled: nat, pending: seq<(nat, Pending)>, error: Option<LedgerError>)
    modifies conn
    ensures (conn.db, Summary(settled, pending), error) ==
            Swept(old(conn.db), OpenIds(old(conn.db).tickets), Summary(0, []), now)
  {
    hide TicketSettled, OpenIds;
    var ids := OpenIds(conn.db.tickets);
    settled, pending, error := 0, [], None;
    var i := 0;
    assert ids[0..] == ids;
    while i < |ids|
      invariant 0 <= i <= |ids|
      invariant KnownIds(conn.db, ids)
      invariant Swept(conn.db, ids[i..], Summary(settled, pending), now)
                == Swept(old(conn.db), ids, Summary(0, []), now)
    {
      SweepTurn(conn.db, ids, i, Summary(settled, pending), now);
      var result := SettleTicket(conn, ids[i], now);
      if result.Err? {
        error := Some(result.error);
        return;
      }
      match result.value {
        case AlreadySettled =>
        case Waiting(reason) => pending := pending + [(ids[i], reason)];
        case SettledNow => settled := settled + 1;
      }
      i := i + 1;
    }
  }
}
