/** Every interleaving, with a crash after any step, keeps the protocol's invariant; at most one order
    is sent per proposal, and only the approved one. */
module ProtocolSafety {
  import opened Prelude
  import opened RiskEngine
  import opened Storage
  import opened Execution
  import opened Protocol

  // ---------- what no step undoes ----------

  ghost predicate Grows(w: World, w': World) {
    && (forall id | id in w.store.proposals ::
          && id in w'.store.proposals
          && w'.store.proposals[id].ticket == w.store.proposals[id].ticket
          && (!Decidable(w.store.proposals[id].status) ==> !Decidable(w'.store.proposals[id].status)))
    && (forall id | id in w.store.executions :: id in w'.store.executions)
    && (forall a | a in w.approvals :: a in w'.approvals)
  }

  lemma EndorsedKept(w: World, w': World, id: string)
    requires Grows(w, w') && Endorsed(w, id)
    ensures Endorsed(w', id)
  {
  }

  lemma PointKept(w: World, w': World, point: Point)
    requires Grows(w, w') && PointOk(w, point)
    requires point.Sending? ==> (NotPosted(w, point.call.id) ==> NotPosted(w', point.call.id))
    ensures PointOk(w', point)
  {
    hide Coupled;
    if point.Weighing? || point.Claiming? || point.Sending? {
      EndorsedKept(w, w', point.call.id);
    }
  }

  lemma PostKept(w: World, w': World, p: Post)
    requires Grows(w, w') && PostOk(w, p)
    ensures PostOk(w', p)
  {
    EndorsedKept(w, w', p.id);
  }

  /** A proposal row that a step left alone. */
  lemma ProposalKept(w: World, w': World, id: string)
    requires Grows(w, w') && id in w.store.proposals && ProposalOk(w, id)
    requires w'.store.proposals[id] == w.store.proposals[id]
    ensures ProposalOk(w', id)
  {
    hide Endorsed;
    if w.store.proposals[id].status == Approved {
      EndorsedKept(w, w', id);
    }
  }

  /** A step of the store alone. */
  lemma StoreChanged(w: World, w': World)
    requires Safe(w) && Grows(w, w') && StoreOk(w')
    requires w'.points == w.points && w'.posts == w.posts
    ensures Safe(w')
  {
    hide StoreOk, Grows, PointOk, PostOk;
    forall n | n in w'.points
      ensures PointOk(w', w'.points[n])
    {
      PointKept(w, w', w.points[n]);
    }
    forall p | p in w'.posts
      ensures PostOk(w', p)
    {
      PostKept(w, w', p);
    }
  }

  lemma GrowsTrivially(w: World, w': World)
    requires w'.store.proposals == w.store.proposals && w'.store.executions == w.store.executions
    requires w'.approvals == w.approvals
    ensures Grows(w, w')
  {
  }

  lemma StoreSame(w: World, w': World)
    requires StoreOk(w)
    requires w'.store.proposals == w.store.proposals && w'.store.executions == w.store.executions
    requires w'.approvals == w.approvals
    ensures StoreOk(w')
  {
    hide Coupled;
    forall id | id in w'.store.proposals
      ensures ProposalOk(w', id)
    {
      assert ProposalOk(w, id);
    }
    forall id | id in w'.store.executions
      ensures ExecutionOk(w'.store, id)
    {
      assert ExecutionOk(w.store, id);
    }
  }

  /** A step of one process alone. */
  lemma Moved(w: World, n: nat, point: Point)
    requires Safe(w) && PointOk(w, point)
    requires point.Sending? ==>
               forall m | m in w.points && w.points[m].Sending? :: w.points[m].call.id != point.call.id
    ensures Safe(At(w, n, point))
  {
    hide StoreOk, Grows, PointOk, PostOk;
    var w' := At(w, n, point);
    GrowsTrivially(w, w');
    StoreSame(w, w');
    PointKept(w, w', point);
    forall m | m in w'.points
      ensures PointOk(w', w'.points[m])
    {
      if m != n {
        PointKept(w, w', w.points[m]);
      }
    }
    forall p | p in w'.posts
      ensures PostOk(w', p)
    {
      PostKept(w, w', p);
    }
  }

  // ---------- the steps ----------

  lemma ProposedSafe(w: World, ticket: TradeTicket)
    requires Safe(w)
    ensures Safe(Proposed(w, ticket))
  {
    var w' := Proposed(w, ticket);
    if ticket.id !in w.store.proposals {
      assert Grows(w, w');
      forall id | id in w'.store.proposals
        ensures ProposalOk(w', id)
      {
        if id != ticket.id {
          ProposalKept(w, w', id);
        }
      }
      forall id | id in w'.store.executions
        ensures ExecutionOk(w'.store, id)
      {
        assert ExecutionOk(w.store, id);
      }
      StoreChanged(w, w');
    }
  }

  /** A proposal's row replaced by one with another status and the same ticket. */
  lemma StatusSafe(w: World, w': World, id: string)
    requires Safe(w) && id in w.store.proposals
    requires w'.points == w.points && w'.posts == w.posts && w'.store.executions == w.store.executions
    requires forall a | a in w.approvals :: a in w'.approvals
    requires w'.store.proposals.Keys == w.store.proposals.Keys
    requires forall x | x in w.store.proposals && x != id :: w'.store.proposals[x] == w.store.proposals[x]
    requires w'.store.proposals[id].ticket == w.store.proposals[id].ticket
    requires w'.store.proposals[id].hash == w.store.proposals[id].hash
    requires Decidable(w'.store.proposals[id].status) ==> Decidable(w.store.proposals[id].status)
    requires ProposalOk(w', id)
    requires id in w.store.executions ==> ExecutionOk(w'.store, id)
    ensures Safe(w')
  {
    hide PointsOk, OneSender, PostsOk, Endorsed;
    assert Grows(w, w');
    forall x | x in w'.store.proposals
      ensures ProposalOk(w', x)
    {
      if x != id {
        ProposalKept(w, w', x);
      }
    }
    forall x | x in w'.store.executions
      ensures ExecutionOk(w'.store, x)
    {
      assert ExecutionOk(w.store, x);
    }
    StoreChanged(w, w');
  }

  /** A pending proposal has no execution. */
  lemma PendingUnclaimed(w: World, id: string)
    requires Safe(w) && id in w.store.proposals && w.store.proposals[id].status == Pending
    ensures id !in w.store.executions && w.store.proposals[id].hash == Fingerprint(w.store.proposals[id].ticket)
  {
    hide PointsOk, OneSender, PostsOk, Endorsed;
    assert ProposalOk(w, id);
    assert id in w.store.executions ==> ExecutionOk(w.store, id);
  }

  lemma ReviewedSafe(w: World, id: string, approve: bool, approver: string, expected: TicketHash,
                     reason: Option<string>, now: int)
    requires Safe(w)
    ensures Safe(Reviewed(w, id, approve, approver, expected, reason, now))
  {
    hide Safe;
    var w' := Reviewed(w, id, approve, approver, expected, reason, now);
    if id in w.store.proposals && w.store.proposals[id].status == Pending && w.store.proposals[id].hash == expected {
      PendingUnclaimed(w, id);
      if w.store.proposals[id].ticket.expiresAt > now && approve {
        var a := Approval(id, expected, approver, now);
        assert a in w'.approvals;
        assert Endorsed(w', id);
      }
      StatusSafe(w, w', id);
    }
  }

  lemma RetiredSafe(w: World, id: string)
    requires Safe(w)
    ensures Safe(w.(store := Retired(w.store, id)))
  {
    var w' := w.(store := Retired(w.store, id));
    if id in w.store.proposals
       && (w.store.proposals[id].status == Pending || w.store.proposals[id].status == Approved) {
      assert ProposalOk(w, id);
      assert id in w.store.executions ==> ExecutionOk(w.store, id);
      StatusSafe(w, w', id);
    }
  }

  lemma ScreenedSafe(w: World, n: nat, call: Call)
    requires Safe(w)
    ensures Safe(At(w, n, Screened(w.store, call)))
  {
    hide Safe, FreshInputs;
    match Screen(w.store, call) {
      case Proceeds(row) =>
        SafeProposal(w, call.id);
        Moved(w, n, Weighing(call, row));
      case _ => Moved(w, n, Screened(w.store, call));
    }
  }

  lemma SafeProposal(w: World, id: string)
    requires Safe(w) && id in w.store.proposals
    ensures ProposalOk(w, id)
  {
  }

  lemma SafePoint(w: World, n: nat)
    requires Safe(w) && n in w.points
    ensures PointOk(w, w.points[n])
  {
  }

  lemma ClaimedSafe(w: World, n: nat, call: Call, row: Proposal)
    requires Safe(w) && Holds(w, call, row) && call.id !in w.store.executions
    ensures Safe(At(w.(store := ClaimInserted(w.store, call.id, RequestOf(row), call.now)), n, Sending(call, row)))
  {
    var w' := w.(store := ClaimInserted(w.store, call.id, RequestOf(row), call.now));
    ClaimInsertedSafe(w, call, row);
    PointKept(w, w', Weighing(call, row)) by {
      assert Grows(w, w');
    }
    NeverClaimed(w, call.id);
    hide Safe;
    Moved(w', n, Sending(call, row));
  }

  lemma NeverClaimed(w: World, id: string)
    requires Safe(w) && id !in w.store.executions
    ensures NotPosted(w, id)
    ensures forall m | m in w.points && w.points[m].Sending? :: w.points[m].call.id != id
  {
    forall p | p in w.posts
      ensures p.id != id
    {
      assert PostOk(w, p);
    }
    forall m | m in w.points && w.points[m].Sending?
      ensures w.points[m].call.id != id
    {
      assert PointOk(w, w.points[m]);
    }
  }

  /** The claimed proposal was approved, and has been neither sent nor rejected since. */
  lemma ClaimInsertedSafe(w: World, call: Call, row: Proposal)
    requires Safe(w) && Holds(w, call, row) && call.id !in w.store.executions
    ensures Safe(w.(store := ClaimInserted(w.store, call.id, RequestOf(row), call.now)))
  {
    var w' := w.(store := ClaimInserted(w.store, call.id, RequestOf(row), call.now));
    assert ProposalOk(w, call.id);
    forall id | id in w'.store.proposals
      ensures ProposalOk(w', id)
    {
      assert ProposalOk(w, id);
    }
    forall id | id in w'.store.executions
      ensures ExecutionOk(w'.store, id)
    {
      assert id != call.id ==> ExecutionOk(w.store, id);
    }
    assert Grows(w, w');
    StoreChanged(w, w');
  }

  lemma UpdateAfterCoupled(id: string, row: Proposal, now: int, answer: Answer)
    ensures var u := UpdateAfter(id, row, now, answer);
            u.id == id && u.at == now && u.state != ExecClaimed && Coupled(u.state, u.status)
  {
  }

  lemma SentSafe(w: World, n: nat, call: Call, row: Proposal, answer: Answer)
    requires Safe(w) && n in w.points && w.points[n] == Sending(call, row)
    ensures Safe(Advanced(w, n, answer))
  {
    SafePoint(w, n);
    UpdateAfterCoupled(call.id, row, call.now, answer);
    var recording := Recording(UpdateAfter(call.id, row, call.now, answer), EventAfter(row, answer));
    Moved(w, n, recording);
    var w1 := At(w, n, recording);
    var post := PostOf(call, row, answer);
    assert PostOk(w1, post) by {
      EndorsedKept(w, w1, call.id);
    }
    forall m | m in w1.points && w1.points[m].Sending?
      ensures w1.points[m].call.id != call.id
    {
      assert m in w.points && w.points[m].Sending?;
    }
    hide Safe, UpdateAfter, EventAfter, PointOk;
    PostAppended(w1, post);
  }

  lemma PostAppended(w: World, post: Post)
    requires Safe(w) && PostOk(w, post) && NotPosted(w, post.id)
    requires forall m | m in w.points && w.points[m].Sending? :: w.points[m].call.id != post.id
    ensures Safe(w.(posts := w.posts + [post], sent := w.sent + [w.clock]))
  {
    hide Coupled, Endorsed;
    var w' := w.(posts := w.posts + [post], sent := w.sent + [w.clock]);
    GrowsTrivially(w, w');
    StoreSame(w, w');
    forall n | n in w'.points
      ensures PointOk(w', w'.points[n])
    {
      PointKept(w, w', w.points[n]);
    }
    forall p | p in w'.posts
      ensures PostOk(w', p)
    {
      PostKept(w, w', p);
    }
  }

  lemma RecordedGrows(w: World, u: Update)
    requires u.id in w.store.executions && ExecutionOk(w.store, u.id)
    requires u.state != ExecClaimed && Coupled(u.state, u.status)
    ensures Grows(w, w.(store := Updated(w.store, u)))
  {
  }

  lemma RecordedStore(w: World, u: Update)
    requires Safe(w) && u.id in w.store.executions && u.state != ExecClaimed && Coupled(u.state, u.status)
    ensures StoreOk(w.(store := Updated(w.store, u)))
  {
    hide PointsOk, OneSender, PostsOk, Grows, Endorsed;
    var w' := w.(store := Updated(w.store, u));
    assert ExecutionOk(w.store, u.id);
    RecordedGrows(w, u);
    forall id | id in w'.store.proposals
      ensures ProposalOk(w', id)
    {
      assert ProposalOk(w, id);
      if id != u.id {
        ProposalKept(w, w', id);
      }
    }
    forall id | id in w'.store.executions
      ensures ExecutionOk(w'.store, id)
    {
      assert ExecutionOk(w.store, id);
    }
  }

  lemma RecordedSafe(w: World, u: Update)
    requires Safe(w) && u.id in w.store.executions && u.state != ExecClaimed && Coupled(u.state, u.status)
    ensures Safe(w.(store := Updated(w.store, u)))
  {
    RecordedStore(w, u);
    assert ExecutionOk(w.store, u.id);
    hide Safe, StoreOk, Grows, ExecutionOk;
    RecordedGrows(w, u);
    StoreChanged(w, w.(store := Updated(w.store, u)));
  }

  lemma LoggedSafe(w: World, kind: EventKind, id: string, now: int)
    requires Safe(w)
    ensures Safe(w.(store := Logged(w.store, kind, id, now)))
  {
    var w' := w.(store := Logged(w.store, kind, id, now));
    GrowsTrivially(w, w');
    StoreSame(w, w');
    hide StoreOk, Grows;
    StoreChanged(w, w');
  }

  lemma AdvancedSafe(w: World, n: nat, answer: Answer)
    requires Safe(w)
    ensures Safe(Advanced(w, n, answer))
  {
    hide Safe, PassesRisk, Updated, Retired, ClaimInserted, UpdateAfter, EventAfter, Logged, Screened;
    if n in w.points {
      SafePoint(w, n);
      match w.points[n] {
        case Idle =>
        case Called(call) => ScreenedSafe(w, n, call);
        case Seeking(id, now) => Moved(w, n, Sought(w.store, id, now));
        case Retiring(id) =>
          RetiredSafe(w, id);
          Moved(w.(store := Retired(w.store, id)), n, Idle);
        case Weighing(call, row) =>
          Moved(w, n, if PassesRisk(w.store, call, row.ticket) then Claiming(call, row) else Idle);
        case Claiming(call, row) =>
          if call.id in w.store.executions {
            Moved(w, n, Idle);
          } else {
            ClaimedSafe(w, n, call, row);
          }
        case Sending(call, row) => SentSafe(w, n, call, row, answer);
        case Recording(u, kind) =>
          RecordedSafe(w, u);
          Moved(w.(store := Updated(w.store, u)), n, Logging(u.id, kind, u.at));
        case Logging(id, kind, now) =>
          LoggedSafe(w, kind, id, now);
          Moved(w.(store := Logged(w.store, kind, id, now)), n, Idle);
        case Asking(id, orderId, now) =>
          if answer.Accepted? {
            Moved(w, n, Recording(UpdateReported(id, orderId, answer.response, now), EventReported(answer.response)));
          } else {
            Moved(w, n, Idle);
          }
      }
    }
  }

  lemma TickSafe(w: World, now: int)
    requires Safe(w)
    ensures Safe(Step(w, Tick(now)))
  {
    var w' := Step(w, Tick(now));
    GrowsTrivially(w, w');
    StoreSame(w, w');
    hide StoreOk, Grows;
    StoreChanged(w, w');
  }

  lemma StepSafe(w: World, act: Act)
    requires Safe(w)
    ensures Safe(Step(w, act))
  {
    hide Safe, Proposed, Reviewed, Advanced;
    match act {
      case Propose(ticket) => ProposedSafe(w, ticket);
      case Review(id, approve, approver, expected, reason, now) =>
        ReviewedSafe(w, id, approve, approver, expected, reason, now);
      case Begin(n, call) => Moved(w, n, Called(call));
      case Ask(n, id, now) => Moved(w, n, Seeking(id, now));
      case Advance(n, answer) => AdvancedSafe(w, n, answer);
      case Crash(n) => Moved(w, n, Idle);
      case Tick(now) => TickSafe(w, now);
    }
  }

  lemma {:induction false} StepsSafe(w: World, acts: seq<Act>)
    requires Safe(w)
    ensures Safe(Steps(w, acts))
    decreases |acts|
  {
    hide Safe;
    if acts != [] {
      StepSafe(w, acts[0]);
      StepsSafe(Step(w, acts[0]), acts[1..]);
    }
  }

  // ---------- the theorems ----------

  /** AT MOST ONE ORDER PER PROPOSAL, over every interleaving with crashes, and only the ticket whose
      exact hash a human approved before its expiry, for a call that read the clock before it too. */
  lemma AtMostOnePost(acts: seq<Act>)
    ensures var w := Steps(START, acts);
            && (forall i, j | 0 <= i < j < |w.posts| :: w.posts[i].id != w.posts[j].id)
            && (forall p | p in w.posts ::
                  && p.id in w.store.proposals
                  && (var ticket := w.store.proposals[p.id].ticket;
                      && p.hash == Fingerprint(ticket) && p.ticker == ticket.ticker && p.quantity == ticket.quantity
                      && p.readAt < ticket.expiresAt
                      && exists a | a in w.approvals :: a.id == p.id && a.hash == p.hash && a.at < ticket.expiresAt))
  {
    StepsSafe(START, acts);
    var w := Steps(START, acts);
    forall p | p in w.posts
      ensures PostOk(w, p)
    {
    }
  }

  /** THE PAIR IS COUPLED in every reachable state: a claimed execution goes with an approved or expired proposal, a
      submitted one with a submitted, an unknown one with one that waits for reconciliation, a filled one with a
      filled and a failed one with a failed; and a proposal in one of the last four has an execution. */
  lemma StatusesCoupled(acts: seq<Act>)
    ensures var s := Steps(START, acts).store;
            && (forall id | id in s.executions ::
                  && id in s.proposals
                  && var state, status := s.executions[id].state, s.proposals[id].status;
                     && (state == ExecClaimed <==> status == Approved || status == Expired)
                     && (state == ExecSubmitted <==> status == Submitted)
                     && (state == ExecUnknown <==> status == ReconciliationRequired)
                     && (state == ExecFilled <==> status == Filled) && (state == ExecFailed <==> status == Failed))
            && (forall id | id in s.proposals && id !in s.executions ::
                  var status := s.proposals[id].status;
                  status == Pending || status == Approved || status == Rejected || status == Expired)
  {
    StepsSafe(START, acts);
    var w := Steps(START, acts);
    hide Endorsed;
    forall id | id in w.store.executions
      ensures ExecutionOk(w.store, id)
    {
    }
    forall id | id in w.store.proposals
      ensures ProposalOk(w, id)
    {
    }
  }
}
