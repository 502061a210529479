/** The trading agent's proposals, executions and events (src/japan_agent/storage.py). Each method is
    one database transaction.

    A ticket's fingerprint is modelled as the ticket it digests. */
module Storage {
  import opened Prelude
  import opened RiskEngine
  import opened Journal

  datatype TicketHash = Fingerprint(ticket: TradeTicket)

  datatype ProposalStatus =
    | Pending | Approved | Rejected | Expired | Submitted | Filled | Failed | ReconciliationRequired

  datatype Proposal = Proposal(
    ticket: TradeTicket,
    hash: TicketHash,
    status: ProposalStatus,
    approvedBy: Option<string>,
    approvedAt: Option<int>,
    reason: Option<string>)

  datatype ExecutionState = ExecClaimed | ExecSubmitted | ExecUnknown | ExecFilled | ExecFailed

  datatype Request = Request(ticker: string, quantity: real, hash: TicketHash)

  datatype Quantity = Absent | Reported(value: real) | Unreadable
  datatype BrokerStatus = FilledByBroker | RejectedByBroker | CancelledByBroker | OtherBrokerStatus(text: string)

  /** What the model reads of a broker's answer; texts are in upper case. */
  datatype Response = Response(
    orderId: Option<string>,
    ticker: Option<string>,
    side: Option<string>,
    quantity: Quantity,
    extendedHours: Option<bool>,
    status: BrokerStatus)

  datatype Execution = Execution(
    state: ExecutionState,
    request: Request,
    response: Option<Response>,
    orderId: Option<string>,
    submittedAt: Option<int>,
    updatedAt: int,
    error: Option<string>)

  datatype EventKind =
    | OrderSubmitted | OrderRejected | OrderReconciliationRequired | OrderFilled | OrderTerminalWithoutFill
    | OrderReconciledOpen | ProposalCreated | ProposalApproved | ProposalRejected
  datatype Event = Event(kind: EventKind, proposal: string, at: int)

  /** `claims` lists the executions in the order they were inserted. */
  datatype Store = Store(
    proposals: map<string, Proposal>,
    executions: map<string, Execution>,
    claims: seq<string>,
    events: seq<Entry<Event>>)

  const NO_ROWS := Store(map[], map[], [], [])

  datatype StoreError = NotFound | AlreadyDecided | HashMismatch | ProposalExpired | DuplicateProposal

  /** An execution's new column values; absent ones are kept (COALESCE). */
  datatype Update = Update(
    id: string,
    state: ExecutionState,
    at: int,
    response: Option<Response>,
    orderId: Option<string>,
    error: Option<string>,
    status: ProposalStatus)

  // ---------- proposals ----------

  function Created(s: Store, ticket: TradeTicket): Result<Store, StoreError> {
    if ticket.id in s.proposals then Err(DuplicateProposal)
    else Ok(s.(proposals := s.proposals[ticket.id := Proposal(ticket, Fingerprint(ticket), Pending, None, None, None)]))
  }

  function WithStatus(s: Store, id: string, status: ProposalStatus): Store
    requires id in s.proposals
  {
    s.(proposals := s.proposals[id := s.proposals[id].(status := status)])
  }

  /** A human decision. An expired proposal is retired in the same transaction and the decision refused. */
  function Decided(s: Store, id: string, approve: bool, approver: string, now: int, expected: TicketHash,
                   reason: Option<string>): (Store, Result<Proposal, StoreError>)
  {
    if id !in s.proposals then (s, Err(NotFound))
    else
      var row := s.proposals[id];
      if row.status != Pending then (s, Err(AlreadyDecided))
      else if row.hash != expected then (s, Err(HashMismatch))
      else if row.ticket.expiresAt <= now then (WithStatus(s, id, Expired), Err(ProposalExpired))
      else
        var decided := row.(status := if approve then Approved else Rejected, approvedBy := Some(approver),
                            approvedAt := Some(now), reason := reason);
        (s.(proposals := s.proposals[id := decided]), Ok(decided))
  }

  /** Only proposals that never touched the broker are retired. */
  function Retired(s: Store, id: string): Store {
    if id in s.proposals && (s.proposals[id].status == Pending || s.proposals[id].status == Approved)
    then WithStatus(s, id, Expired)
    else s
  }

  // ---------- executions ----------

  function ClaimInserted(s: Store, id: string, request: Request, now: int): Store {
    s.(executions := s.executions[id := Execution(ExecClaimed, request, None, None, None, now, None)],
       claims := s.claims + [id])
  }

  function Coalesce<T>(given: Option<T>, kept: Option<T>): Option<T> {
    if given.Some? then given else kept
  }

  /** The broker may hold a live order in these states. */
  predicate MayBeLive(state: ExecutionState) { state == ExecSubmitted || state == ExecUnknown || state == ExecFilled }

  /** The execution and its proposal's status, together. */
  function Updated(s: Store, u: Update): Store {
    var executions :=
      if u.id !in s.executions then s.executions
      else
        var row := s.executions[u.id];
        s.executions[u.id := Execution(u.state, row.request, Coalesce(u.response, row.response),
                                       Coalesce(u.orderId, row.orderId),
                                       if MayBeLive(u.state) then Some(u.at) else row.submittedAt, u.at, u.error)];
    var proposals :=
      if u.id !in s.proposals then s.proposals
      else s.proposals[u.id := s.proposals[u.id].(status := u.status)];
    s.(executions := executions, proposals := proposals)
  }

  predicate SubmittedSince(s: Store, id: string, since: int) {
    id in s.executions && s.executions[id].submittedAt.Some? && s.executions[id].submittedAt.value >= since
  }

  /** The submission times recorded since then, in claim order. */
  function SubmittedTimes(s: Store, claims: seq<string>, since: int): seq<int> {
    if claims == [] then []
    else
      SubmittedTimes(s, claims[..|claims| - 1], since) +
      (var id := claims[|claims| - 1];
       if SubmittedSince(s, id, since) then [s.executions[id].submittedAt.value] else [])
  }

  /** WHAT AN UPDATE LEAVES: the new state, the broker's answer and order id where they are given and the old ones
      where not, and the update's time as the submission time exactly where an order may be live; the proposal
      takes its new status, and nothing else changes. */
  lemma UpdateLeaves(s: Store, u: Update)
    requires u.id in s.executions && u.id in s.proposals
    ensures var after := Updated(s, u);
            && after.executions.Keys == s.executions.Keys && after.proposals.Keys == s.proposals.Keys
            && (forall id | id in s.executions && id != u.id :: after.executions[id] == s.executions[id])
            && (forall id | id in s.proposals && id != u.id :: after.proposals[id] == s.proposals[id])
            && after.claims == s.claims && after.events == s.events
            && after.proposals[u.id] == s.proposals[u.id].(status := u.status)
            && (var before, row := s.executions[u.id], after.executions[u.id];
                && row.state == u.state && row.updatedAt == u.at && row.error == u.error
                && row.request == before.request
                && (u.response.Some? ==> row.response == u.response)
                && (u.response.None? ==> row.response == before.response)
                && (u.orderId.Some? ==> row.orderId == u.orderId) && (u.orderId.None? ==> row.orderId == before.orderId)
                && (u.state == ExecSubmitted || u.state == ExecUnknown || u.state == ExecFilled ==>
                      row.submittedAt == Some(u.at))
                && (u.state == ExecClaimed || u.state == ExecFailed ==> row.submittedAt == before.submittedAt))
  {
  }

  /** Exactly the recorded submission times at or after that instant. */
  lemma {:induction false} SubmittedTimesAre(s: Store, claims: seq<string>, since: int, time: int)
    ensures time in SubmittedTimes(s, claims, since) <==>
            since <= time
            && exists id :: id in claims && id in s.executions && s.executions[id].submittedAt == Some(time)
  {
    if claims != [] {
      var init, last := claims[..|claims| - 1], claims[|claims| - 1];
      assert claims == init + [last];
      SubmittedTimesAre(s, init, since, time);
      var tail := if SubmittedSince(s, last, since) then [s.executions[last].submittedAt.value] else [];
      assert SubmittedTimes(s, claims, since) == SubmittedTimes(s, init, since) + tail;
      if id :| id in claims && id in s.executions && s.executions[id].submittedAt == Some(time) {
        assert id in init || id == last;
      }
    }
  }

  class Database {
    var db: Store

    constructor ()
      ensures db == NO_ROWS
    {
      db := NO_ROWS;
    }

    method CreateProposal(ticket: TradeTicket) returns (result: Result<(), StoreError>)
      modifies this
      ensures match Created(old(db), ticket)
              case Ok(s) => db == s && result == Ok(())
              case Err(error) => db == old(db) && result == Err(error)
    {
      if ticket.id in db.proposals {
        return Err(DuplicateProposal);
      }
      var row := Proposal(ticket, Fingerprint(ticket), Pending, None, None, None);
      db := db.(proposals := db.proposals[ticket.id := row]);
      result := Ok(());
    }

    method DecideProposal(id: string, approve: bool, approver: string, now: int, expected: TicketHash,
                          reason: Option<string>)
      returns (result: Result<Proposal, StoreError>)
      modifies this
      ensures (db, result) == Decided(old(db), id, approve, approver, now, expected, reason)
    {
      if id !in db.proposals {
        return Err(NotFound);
      }
      var row := db.proposals[id];
      if row.status != Pending {
        return Err(AlreadyDecided);
      }
      if row.hash != expected {
        return Err(HashMismatch);
      }
      if row.ticket.expiresAt <= now {
        db := db.(proposals := db.proposals[id := row.(status := Expired)]);
        return Err(ProposalExpired);
      }
      var status := if approve then Approved else Rejected;
      row := row.(status := status, approvedBy := Some(approver), approvedAt := Some(now), reason := reason);
      db := db.(proposals := db.proposals[id := row]);
      result := Ok(row);
    }

    method MarkExpired(id: string)
      modifies this
      ensures db == Retired(old(db), id)
    {
      if id in db.proposals && (db.proposals[id].status == Pending || db.proposals[id].status == Approved) {
        db := db.(proposals := db.proposals[id := db.proposals[id].(status := Expired)]);
      }
    }

    /** The one insertion of an execution; a second claim finds the first one's row. */
    method ClaimExecution(id: string, request: Request, now: int) returns (isNew: bool, claim: Execution)
      modifies this
      ensures isNew <==> id !in old(db).executions
      ensures db == if isNew then ClaimInserted(old(db), id, request, now) else old(db)
      ensures id in db.executions && claim == db.executions[id]
    {
      isNew := id !in db.executions;
      if isNew {
        db := db.(executions := db.executions[id := Execution(ExecClaimed, request, None, None, None, now, None)],
                  claims := db.claims + [id]);
      }
      claim := db.executions[id];
    }

    method UpdateExecution(u: Update)
      modifies this
      ensures db == Updated(old(db), u)
    {
      var submittedAt := if MayBeLive(u.state) then Some(u.at) else None;
      if u.id in db.executions {
        var row := db.executions[u.id];
        row := row.(state := u.state, response := Coalesce(u.response, row.response),
                    orderId := Coalesce(u.orderId, row.orderId),
                    submittedAt := Coalesce(submittedAt, row.submittedAt), updatedAt := u.at, error := u.error);
        db := db.(executions := db.executions[u.id := row]);
      }
      if u.id in db.proposals {
        db := db.(proposals := db.proposals[u.id := db.proposals[u.id].(status := u.status)]);
      }
    }

    method SubmittedTradeTimes(since: int) returns (times: seq<int>)
      ensures times == SubmittedTimes(db, db.claims, since)
    {
      times := [];
      for i := 0 to |db.claims|
        invariant times == SubmittedTimes(db, db.claims[..i], since)
      {
        var id := db.claims[i];
        assert db.claims[..i + 1][..i] == db.claims[..i];
        if SubmittedSince(db, id, since) {
          times := times + [db.executions[id].submittedAt.value];
        }
      }
      assert db.claims[..|db.claims|] == db.claims;
    }

    method AppendEvent(kind: EventKind, proposal: string, now: int)
      modifies this
      ensures db == old(db).(events := Appended(old(db).events, Event(kind, proposal, now)))
    {
      var prev := Head(db.events);
      var core := Event(kind, proposal, now);
      db := db.(events := db.events + [Entry(core, prev, Hash(core, prev))]);
    }
  }
}
