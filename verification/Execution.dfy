/** Claim-then-POST execution of an approved ticket, and reconciliation of its order
    (src/japan_agent/execute/service.py). The broker's answer to each call is a parameter. */
module Execution {
  import opened Prelude
  import opened Time
  import opened Reals
  import opened RiskEngine
  import opened Journal
  import opened Storage

  datatype PortfolioSnapshot = PortfolioSnapshot(portfolio: Portfolio, observedAt: int, fromBroker: bool)

  /** One `execute` call: the environment check, the fresh inputs and the clock. */
  datatype Call = Call(
    id: string,
    allowed: bool,
    quote: PriceSnapshot,
    snapshot: PortfolioSnapshot,
    whitelist: map<string, InstrumentRule>,
    now: int)

  datatype Answer = Accepted(response: Response) | Refused(httpStatus: int) | Uncertain

  datatype Halt = Blocked | ManualReconciliation | MissingRow | BrokerFailure
  datatype Outcome = Answered(response: Response) | Raised(halt: Halt)

  /** An order sent to the broker, with the clock reading its call was given. */
  datatype Post = Post(id: string, hash: TicketHash, ticker: string, quantity: real, readAt: int, answer: Answer)

  /** What looking for an order at the broker gives: a report from the pending or the history endpoint,
      neither (404 from the first), or any other broker error. */
  datatype Lookup = Located(report: Response) | Nowhere | LookupFailed

  // ---------- before the claim ----------

  datatype Screening = Replays(response: Response) | Stops(halt: Halt) | Expires | Proceeds(row: Proposal)

  predicate FarFrom(price: real, reference: real, limit: real) {
    reference == 0.0 || Abs(price - reference) / reference > limit
  }

  /** The fresh quote and portfolio are usable for this ticket at this time. */
  predicate FreshInputs(ticket: TradeTicket, call: Call) {
    && call.quote.ticker == ticket.ticker
    && 0 <= call.now - call.quote.observedAt <= 20 * MINUTE
    && call.quote.priceGbp > 0.0
    && !FarFrom(call.quote.priceGbp, ticket.referencePrice, ticket.maxDeviation)
    && call.snapshot.fromBroker
    && 0 <= call.now - call.snapshot.observedAt <= 2 * MINUTE
  }

  /** What reading the proposal leads to. */
  function Screen(s: Store, call: Call): Screening {
    if !call.allowed || call.id !in s.proposals then Stops(Blocked)
    else
      var row := s.proposals[call.id];
      match row.status
      case Submitted => Replay(s, call.id)
      case Filled => Replay(s, call.id)
      case ReconciliationRequired => Stops(ManualReconciliation)
      case Approved =>
        if row.hash != Fingerprint(row.ticket) || row.approvedAt.None? || row.approvedBy.None? then Stops(Blocked)
        else if call.now >= row.ticket.expiresAt then Expires
        else if !FreshInputs(row.ticket, call) then Stops(Blocked)
        else Proceeds(row)
      case _ => Stops(Blocked)
  }

  /** A stored broker response is returned again; the order is not. */
  function Replay(s: Store, id: string): Screening {
    if id !in s.executions then Stops(MissingRow)
    else if s.executions[id].response.Some? then Replays(s.executions[id].response.value)
    else Stops(ManualReconciliation)
  }

  function RuleFor(call: Call, ticker: string): Option<InstrumentRule> {
    if ticker in call.whitelist then Some(call.whitelist[ticker]) else None
  }

  /** The fresh risk check, with the submissions of the last seven days. */
  predicate PassesRisk(s: Store, call: Call, ticket: TradeTicket) {
    ExecutionViolations(ticket, RuleFor(call, ticket.ticker), call.snapshot.portfolio, call.quote.priceGbp,
                        SubmittedTimes(s, s.claims, call.now - WEEK), call.now) == []
  }

  function RequestOf(row: Proposal): Request {
    Request(row.ticket.ticker, row.ticket.quantity, row.hash)
  }

  // ---------- after the broker answered ----------

  function SideText(side: Action): string {
    match side case Buy => "BUY" case Sell => "SELL" case Hold => "HOLD"
  }

  /** The broker confirmed exactly the approved order. */
  predicate Confirms(r: Response, ticket: TradeTicket) {
    && r.orderId.Some?
    && (r.ticker.Some? ==> r.ticker.value == ticket.ticker)
    && (r.side.Some? ==> r.side.value == SideText(ticket.side))
    && (r.quantity == Absent || r.quantity == Reported(ticket.quantity))
    && r.extendedHours != Some(true)
    && r.status != RejectedByBroker && r.status != CancelledByBroker
  }

  function UpdateAfter(id: string, row: Proposal, now: int, answer: Answer): Update {
    match answer
    case Refused(_) => Update(id, ExecFailed, now, None, None, Some("rejected"), Failed)
    case Uncertain => Update(id, ExecUnknown, now, None, None, Some("uncertain"), ReconciliationRequired)
    case Accepted(r) =>
      if Confirms(r, row.ticket) then Update(id, ExecSubmitted, now, Some(r), r.orderId, None, Submitted)
      else Update(id, ExecUnknown, now, Some(r), r.orderId, Some("mismatch"), ReconciliationRequired)
  }

  function EventAfter(row: Proposal, answer: Answer): EventKind {
    match answer
    case Refused(_) => OrderRejected
    case Uncertain => OrderReconciliationRequired
    case Accepted(r) => if Confirms(r, row.ticket) then OrderSubmitted else OrderReconciliationRequired
  }

  function OutcomeAfter(row: Proposal, answer: Answer): Outcome {
    match answer
    case Refused(_) => Raised(Blocked)
    case Uncertain => Raised(ManualReconciliation)
    case Accepted(r) => if Confirms(r, row.ticket) then Answered(r) else Raised(ManualReconciliation)
  }

  function Logged(s: Store, kind: EventKind, id: string, now: int): Store {
    s.(events := Appended(s.events, Event(kind, id, now)))
  }

  /** The claim is lost to an earlier one: its answer, or a human, decides. */
  function LostClaim(claim: Execution): Outcome {
    if (claim.state == ExecSubmitted || claim.state == ExecFilled) && claim.response.Some?
    then Answered(claim.response.value)
    else Raised(ManualReconciliation)
  }

  /** A whole `execute` with nothing happening in between: the rows it leaves, the order it sent, if any,
      and what it returns. */
  function Executed(s: Store, call: Call, answer: Answer): (Store, Option<Post>, Outcome) {
    match Screen(s, call)
    case Replays(response) => (s, None, Answered(response))
    case Stops(halt) => (s, None, Raised(halt))
    case Expires => (Retired(s, call.id), None, Raised(Blocked))
    case Proceeds(row) =>
      if !PassesRisk(s, call, row.ticket) then (s, None, Raised(Blocked))
      else if call.id in s.executions then (s, None, LostClaim(s.executions[call.id]))
      else
        var claimed := ClaimInserted(s, call.id, RequestOf(row), call.now);
        var updated := Updated(claimed, UpdateAfter(call.id, row, call.now, answer));
        (Logged(updated, EventAfter(row, answer), call.id, call.now),
         Some(Post(call.id, row.hash, row.ticket.ticker, row.ticket.quantity, call.now, answer)),
         OutcomeAfter(row, answer))
  }

  /** The price moved from the approved one by no more than this fraction of it. Dividing by a reference of
      nothing fails, and a negative one, which no built ticket has, turns the comparison round. */
  predicate PriceHolds(price: real, reference: real, fraction: real) {
    var moved := if price < reference then reference - price else price - reference;
    if reference > 0.0 then moved <= fraction * reference
    else reference != 0.0 && moved >= fraction * reference
  }

  lemma PriceHoldsIff(price: real, reference: real, fraction: real)
    ensures PriceHolds(price, reference, fraction) <==> !FarFrom(price, reference, fraction)
  {
    var moved := Abs(price - reference);
    if reference != 0.0 {
      DivMul(moved, reference);
      if reference > 0.0 {
        if moved / reference <= fraction {
          MulMono(moved / reference, fraction, reference);
        } else {
          MulStrict(fraction, moved / reference, reference);
        }
      } else {
        assert moved / reference * -reference == -moved && fraction * -reference == -(fraction * reference);
        if moved / reference <= fraction {
          MulMono(moved / reference, fraction, -reference);
        } else {
          MulStrict(fraction, moved / reference, -reference);
        }
      }
    }
  }

  /** A quote for this ticket, no more than twenty minutes old, at a positive price that held. */
  predicate QuoteUsable(ticket: TradeTicket, quote: PriceSnapshot, now: int) {
    && quote.ticker == ticket.ticker && quote.priceGbp > 0.0
    && quote.observedAt <= now <= quote.observedAt + 20 * 60_000_000
    && PriceHolds(quote.priceGbp, ticket.referencePrice, ticket.maxDeviation)
  }

  /** The broker's own portfolio, no more than two minutes old. */
  predicate PortfolioUsable(snapshot: PortfolioSnapshot, now: int) {
    snapshot.fromBroker && snapshot.observedAt <= now <= snapshot.observedAt + 2 * 60_000_000
  }

  lemma FreshInputsIff(ticket: TradeTicket, call: Call)
    ensures FreshInputs(ticket, call) <==>
            QuoteUsable(ticket, call.quote, call.now) && PortfolioUsable(call.snapshot, call.now)
  {
    hide PriceHolds, FarFrom;
    PriceHoldsIff(call.quote.priceGbp, ticket.referencePrice, ticket.maxDeviation);
  }

  /** The instrument is still whitelisted, fewer than three submissions of the last seven days are of this week,
      and the fresh portfolio keeps every limit at the quoted price. */
  ghost predicate RiskAllows(s: Store, call: Call, ticket: TradeTicket) {
    && ticket.ticker in call.whitelist
    && (var rule := call.whitelist[ticket.ticker];
        && rule.ticker == ticket.ticker && (rule.kind.Stock? || rule.kind.Etf?)
        && ThisWeek(SubmittedTimes(s, s.claims, call.now - 7 * DAY), call.now) < 3
        && WithinLimits(ticket, rule, call.snapshot.portfolio, call.quote.priceGbp))
  }

  lemma PassesRiskIff(s: Store, call: Call, ticket: TradeTicket)
    ensures PassesRisk(s, call, ticket) <==> RiskAllows(s, call, ticket)
  {
    hide ThisWeek, SubmittedTimes, WithinLimits, ExecutionViolations;
    ExecutableIff(ticket, RuleFor(call, ticket.ticker), call.snapshot.portfolio, call.quote.priceGbp,
                  SubmittedTimes(s, s.claims, call.now - WEEK), call.now);
  }

  /** The stored ticket is intact, approved by someone and not expired, and nothing about the call stands in its way. */
  ghost predicate MaySend(s: Store, call: Call) {
    && call.allowed && call.id in s.proposals
    && (var row := s.proposals[call.id];
        && row.status == Approved && row.hash == Fingerprint(row.ticket)
        && row.approvedAt.Some? && row.approvedBy.Some? && call.now < row.ticket.expiresAt
        && QuoteUsable(row.ticket, call.quote, call.now) && PortfolioUsable(call.snapshot, call.now)
        && RiskAllows(s, call, row.ticket))
  }

  /** AN ORDER IS SENT exactly when the environment allows it, the stored ticket is intact, approved by someone
      and not expired, the quote is for its instrument, fresh and near the approved price, the portfolio is the
      broker's own and fresh, the limits hold and no execution was ever claimed. */
  lemma SendsIff(s: Store, call: Call, answer: Answer)
    ensures Executed(s, call, answer).1.Some? <==> MaySend(s, call) && call.id !in s.executions
  {
    if call.id in s.proposals {
      FreshInputsIff(s.proposals[call.id].ticket, call);
      PassesRiskIff(s, call, s.proposals[call.id].ticket);
    }
    hide FreshInputs, PassesRisk, Updated, Logged, UpdateAfter, EventAfter, OutcomeAfter, ClaimInserted, Retired,
         QuoteUsable, PortfolioUsable, RiskAllows;
  }

  /** WHAT IS SENT is the stored ticket, and it is what the claim says was requested. */
  lemma SendsTheTicket(s: Store, call: Call, answer: Answer)
    requires Executed(s, call, answer).1.Some?
    ensures var (after, sent, _) := Executed(s, call, answer);
            && call.id in s.proposals && call.id in after.executions
            && (var ticket, request := s.proposals[call.id].ticket, after.executions[call.id].request;
                && sent.value.id == call.id && sent.value.readAt == call.now && sent.value.answer == answer
                && sent.value.ticker == request.ticker == ticket.ticker
                && sent.value.quantity == request.quantity == ticket.quantity
                && sent.value.hash == request.hash == Fingerprint(ticket))
  {
    SendsIff(s, call, answer);
    hide FreshInputs, PassesRisk, UpdateAfter, EventAfter, OutcomeAfter, QuoteUsable, PortfolioUsable, RiskAllows;
    UpdateNames(call.id, s.proposals[call.id], call.now, answer);
  }

  lemma UpdateNames(id: string, row: Proposal, now: int, answer: Answer)
    ensures UpdateAfter(id, row, now, answer).id == id && UpdateAfter(id, row, now, answer).at == now
  {
  }

  /** The broker's answer confirms the order: it names one, and whatever it says of the instrument, the side, the
      quantity or extended hours is as approved, and it was not turned down. */
  predicate ConfirmsOrder(r: Response, ticket: TradeTicket) {
    && r.orderId.Some? && (r.ticker == None || r.ticker == Some(ticket.ticker))
    && (r.side == None
        || (ticket.side == Buy && r.side == Some("BUY")) || (ticket.side == Sell && r.side == Some("SELL"))
        || (ticket.side == Hold && r.side == Some("HOLD")))
    && (r.quantity == Absent || r.quantity == Reported(ticket.quantity))
    && (r.extendedHours.Some? ==> !r.extendedHours.value)
    && (r.status == FilledByBroker || r.status.OtherBrokerStatus?)
  }

  lemma ConfirmsIff(r: Response, ticket: TradeTicket)
    ensures ConfirmsOrder(r, ticket) <==> Confirms(r, ticket)
  {
    if Confirms(r, ticket) {
      assert r.side.Some? ==> r.side == Some(SideText(ticket.side));
      assert r.ticker.Some? ==> r.ticker == Some(ticket.ticker);
    }
  }

  /** WHAT AN ANSWER LEAVES: a refusal fails, a confirmed order is submitted with its id, and anything else is
      unknown and waits for a human. */
  lemma AnswerLeaves(id: string, row: Proposal, now: int, answer: Answer)
    ensures var u, kind := UpdateAfter(id, row, now, answer), EventAfter(row, answer);
            var outcome := OutcomeAfter(row, answer);
            match answer
            case Refused(_) =>
              && u.state == ExecFailed && u.status == Failed && kind == OrderRejected && outcome == Raised(Blocked)
              && u.response == None && u.orderId == None
            case Uncertain =>
              && u.state == ExecUnknown && u.status == ReconciliationRequired && kind == OrderReconciliationRequired
              && outcome == Raised(ManualReconciliation) && u.response == None && u.orderId == None
            case Accepted(r) =>
              && u.response == Some(r) && u.orderId == r.orderId
              && if ConfirmsOrder(r, row.ticket)
                 then u.state == ExecSubmitted && u.status == Submitted && kind == OrderSubmitted
                      && outcome == Answered(r)
                 else u.state == ExecUnknown && u.status == ReconciliationRequired
                      && kind == OrderReconciliationRequired && outcome == Raised(ManualReconciliation)
  {
    if answer.Accepted? {
      ConfirmsIff(answer.response, row.ticket);
    }
    hide Confirms, ConfirmsOrder;
  }

  /** A CLAIM LOST to an earlier execute sends nothing and changes nothing: it answers with the response of a submitted
      or filled order and otherwise asks for a human. */
  lemma LostClaimAnswers(s: Store, call: Call, answer: Answer)
    requires MaySend(s, call) && call.id in s.executions
    ensures var claim := s.executions[call.id];
            Executed(s, call, answer) ==
            (s, None, if (claim.state == ExecSubmitted || claim.state == ExecFilled) && claim.response.Some?
                      then Answered(claim.response.value) else Raised(ManualReconciliation))
  {
    FreshInputsIff(s.proposals[call.id].ticket, call);
    PassesRiskIff(s, call, s.proposals[call.id].ticket);
    hide FreshInputs, PassesRisk, Updated, Logged, UpdateAfter, EventAfter, OutcomeAfter, ClaimInserted, Retired,
         QuoteUsable, PortfolioUsable, RiskAllows;
  }

  /** A SECOND EXECUTE sends nothing: it answers with the stored response of a submitted or filled order, and
      otherwise asks for a human. */
  lemma SecondExecute(s: Store, call: Call, answer: Answer)
    requires call.allowed && call.id in s.proposals && call.id in s.executions
    ensures var (after, sent, outcome) := Executed(s, call, answer);
            var claim, status := s.executions[call.id], s.proposals[call.id].status;
            && sent == None
            && (status == Submitted || status == Filled ==>
                  after == s && outcome == if claim.response.Some? then Answered(claim.response.value)
                                           else Raised(ManualReconciliation))
            && (status == ReconciliationRequired ==> after == s && outcome == Raised(ManualReconciliation))
            && (status == Pending || status == Rejected || status == Expired || status == Failed ==>
                  after == s && outcome == Raised(Blocked))
            && (outcome.Answered? ==>
                  && claim.response == Some(outcome.response)
                  && (status == Approved ==> claim.state == ExecSubmitted || claim.state == ExecFilled))
  {
    hide FreshInputs, PassesRisk, Retired;
  }

  // ---------- reconcile ----------

  function UpdateReported(id: string, orderId: string, report: Response, now: int): Update {
    match report.status
    case FilledByBroker => Update(id, ExecFilled, now, Some(report), Some(orderId), None, Filled)
    case RejectedByBroker => Update(id, ExecFailed, now, Some(report), Some(orderId), None, Failed)
    case CancelledByBroker => Update(id, ExecFailed, now, Some(report), Some(orderId), None, Failed)
    case OtherBrokerStatus(_) => Update(id, ExecSubmitted, now, Some(report), Some(orderId), None, Submitted)
  }

  function EventReported(report: Response): EventKind {
    match report.status
    case FilledByBroker => OrderFilled
    case RejectedByBroker => OrderTerminalWithoutFill
    case CancelledByBroker => OrderTerminalWithoutFill
    case OtherBrokerStatus(_) => OrderReconciledOpen
  }

  /** WHICH REPORT LEAVES WHICH STATE: filled, failed without a fill, or submitted and still open. */
  lemma ReportLeaves(id: string, orderId: string, report: Response, now: int)
    ensures var u, kind := UpdateReported(id, orderId, report, now), EventReported(report);
            && u.id == id && u.at == now && u.response == Some(report) && u.orderId == Some(orderId)
            && (report.status == FilledByBroker <==> u.state == ExecFilled)
            && (u.state == ExecFilled <==> u.status == Filled) && (u.state == ExecFilled <==> kind == OrderFilled)
            && (report.status == RejectedByBroker || report.status == CancelledByBroker <==> u.state == ExecFailed)
            && (u.state == ExecFailed <==> u.status == Failed)
            && (u.state == ExecFailed <==> kind == OrderTerminalWithoutFill)
            && (report.status.OtherBrokerStatus? <==> u.state == ExecSubmitted)
            && (u.state == ExecSubmitted <==> u.status == Submitted)
            && (u.state == ExecSubmitted <==> kind == OrderReconciledOpen)
  {
  }

  predicate KnowsOrder(s: Store, id: string) {
    id in s.executions && s.executions[id].orderId.Some? && s.executions[id].orderId.value != ""
  }

  /** A whole `reconcile`. */
  function ReconciledBy(s: Store, id: string, lookup: Lookup, now: int): (Store, Outcome) {
    if id !in s.executions then (s, Raised(MissingRow))
    else if !KnowsOrder(s, id) then (s, Raised(ManualReconciliation))
    else
      match lookup
      case LookupFailed => (s, Raised(BrokerFailure))
      case Nowhere => (s, Raised(ManualReconciliation))
      case Located(report) =>
        (Logged(Updated(s, UpdateReported(id, s.executions[id].orderId.value, report, now)),
                EventReported(report), id, now),
         Answered(report))
  }

  class ExecutionService {
    const database: Database

    constructor (database: Database)
      ensures this.database == database
    {
      this.database := database;
    }

    /** `answer` is what the broker would answer to the order, were it sent; `sent` is the order, if it was. */
    method Execute(call: Call, answer: Answer) returns (outcome: Outcome, sent: Option<Post>)
      modifies database
      ensures (database.db, sent, outcome) == Executed(old(database.db), call, answer)
    {
      sent := None;
      var screening := Screen(database.db, call);
      match screening {
        case Replays(response) =>
          return Answered(response), None;
        case Stops(halt) =>
          return Raised(halt), None;
        case Expires =>
          database.MarkExpired(call.id);
          return Raised(Blocked), None;
        case Proceeds(row) =>
          var times := database.SubmittedTradeTimes(call.now - WEEK);
          var violations := ValidateExecution(row.ticket, RuleFor(call, row.ticket.ticker), call.snapshot.portfolio,
                                              call.quote.priceGbp, times, call.now);
          if violations != [] {
            return Raised(Blocked), None;
          }
          var isNew, claim := database.ClaimExecution(call.id, RequestOf(row), call.now);
          if !isNew {
            return LostClaim(claim), None;
          }
          sent := Some(Post(call.id, row.hash, row.ticket.ticker, row.ticket.quantity, call.now, answer));
          outcome := RecordAnswer(call.id, row, call.now, answer);
      }
    }

    /** The row update and event that follow the broker's answer. */
    method RecordAnswer(id: string, row: Proposal, now: int, answer: Answer) returns (outcome: Outcome)
      modifies database
      ensures database.db == Logged(Updated(old(database.db), UpdateAfter(id, row, now, answer)),
                                    EventAfter(row, answer), id, now)
      ensures outcome == OutcomeAfter(row, answer)
    {
      match answer {
        case Refused(_) =>
          database.UpdateExecution(Update(id, ExecFailed, now, None, None, Some("rejected"), Failed));
          database.AppendEvent(OrderRejected, id, now);
          outcome := Raised(Blocked);
        case Uncertain =>
          MarkUnknown(id, now, "uncertain", None, None);
          outcome := Raised(ManualReconciliation);
        case Accepted(response) =>
          if !Confirms(response, row.ticket) {
            MarkUnknown(id, now, "mismatch", Some(response), response.orderId);
            outcome := Raised(ManualReconciliation);
          } else {
            database.UpdateExecution(Update(id, ExecSubmitted, now, Some(response), response.orderId, None, Submitted));
            database.AppendEvent(OrderSubmitted, id, now);
            outcome := Answered(response);
          }
      }
    }

    method MarkUnknown(id: string, now: int, error: string, response: Option<Response>, orderId: Option<string>)
      modifies database
      ensures database.db ==
              Logged(Updated(old(database.db),
                             Update(id, ExecUnknown, now, response, orderId, Some(error), ReconciliationRequired)),
                     OrderReconciliationRequired, id, now)
    {
      database.UpdateExecution(Update(id, ExecUnknown, now, response, orderId, Some(error), ReconciliationRequired));
      database.AppendEvent(OrderReconciliationRequired, id, now);
    }

    method Reconcile(id: string, lookup: Lookup, now: int) returns (outcome: Outcome)
      modifies database
      ensures (database.db, outcome) == ReconciledBy(old(database.db), id, lookup, now)
    {
      if id !in database.db.executions {
        return Raised(MissingRow);
      }
      var claim := database.db.executions[id];
      if claim.orderId.None? || claim.orderId.value == "" {
        return Raised(ManualReconciliation);
      }
      if lookup.LookupFailed? {
        return Raised(BrokerFailure);
      }
      if lookup.Nowhere? {
        return Raised(ManualReconciliation);
      }
      var response := lookup.report;
      var state, status, event := ExecSubmitted, Submitted, OrderReconciledOpen;
      if response.status == FilledByBroker {
        state, status, event := ExecFilled, Filled, OrderFilled;
      } else if response.status == RejectedByBroker || response.status == CancelledByBroker {
        state, status, event := ExecFailed, Failed, OrderTerminalWithoutFill;
      }
      database.UpdateExecution(Update(id, state, now, Some(response), claim.orderId, None, status));
      database.AppendEvent(event, id, now);
      outcome := Answered(response);
    }
  }
}
