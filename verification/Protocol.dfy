/** Concurrent executions, reconciliations and approvals as a state machine. Every database
    transaction and every broker call is a step of its own, any two processes may interleave between
    steps, and a process may stop for good after any of them
    (src/japan_agent/execute/service.py:101-323, src/japan_agent/storage.py:398-560). */
module Protocol {
  import opened Prelude
  import opened RiskEngine
  import opened Storage
  import opened Execution

  /** Where a process is between two steps. `Called` and `Seeking` have read the clock but no row yet. */
  datatype Point =
    | Idle
    | Called(call: Call)
    | Seeking(id: string, now: int)
    | Retiring(id: string)
    | Weighing(call: Call, row: Proposal)
    | Claiming(call: Call, row: Proposal)
    | Sending(call: Call, row: Proposal)
    | Recording(update: Update, kind: EventKind)
    | Logging(id: string, kind: EventKind, now: int)
    | Asking(id: string, orderId: string, now: int)

  /** A human approval: who saw which ticket hash, and when. */
  datatype Approval = Approval(id: string, hash: TicketHash, approver: string, at: int)

  /** The database, the processes, the history of approvals given and orders sent, and the clock, with
      what it showed as each order went out. */
  datatype World = World(
    store: Store, points: map<nat, Point>, approvals: seq<Approval>, posts: seq<Post>, clock: int, sent: seq<int>)

  const START := World(NO_ROWS, map[], [], [], 0, [])

  datatype Act =
    | Propose(ticket: TradeTicket)
    | Review(id: string, approve: bool, approver: string, expected: TicketHash, reason: Option<string>, now: int)
    | Begin(process: nat, call: Call)
    | Ask(process: nat, id: string, now: int)
    | Advance(process: nat, answer: Answer)
    | Crash(process: nat)
    | Tick(now: int)

  function PointOf(w: World, process: nat): Point {
    if process in w.points then w.points[process] else Idle
  }

  function At(w: World, process: nat, point: Point): World {
    w.(points := w.points[process := point])
  }

  function Proposed(w: World, ticket: TradeTicket): World {
    match Created(w.store, ticket)
    case Ok(s) => w.(store := s)
    case Err(_) => w
  }

  function Reviewed(w: World, id: string, approve: bool, approver: string, expected: TicketHash,
                    reason: Option<string>, now: int): World
  {
    var (s, result) := Decided(w.store, id, approve, approver, now, expected, reason);
    w.(store := s,
       approvals := if approve && result.Ok? then w.approvals + [Approval(id, expected, approver, now)]
                    else w.approvals)
  }

  /** `execute` reads the proposal. */
  function Screened(s: Store, call: Call): Point {
    match Screen(s, call)
    case Expires => Retiring(call.id)
    case Proceeds(row) => Weighing(call, row)
    case _ => Idle
  }

  /** `reconcile` reads the execution. */
  function Sought(s: Store, id: string, now: int): Point {
    if KnowsOrder(s, id) then Asking(id, s.executions[id].orderId.value, now) else Idle
  }

  function PostOf(call: Call, row: Proposal, answer: Answer): Post {
    Post(call.id, row.hash, row.ticket.ticker, row.ticket.quantity, call.now, answer)
  }

  /** A process takes its next step; `answer` is the broker's, where the step calls it. */
  function Advanced(w: World, process: nat, answer: Answer): World {
    match PointOf(w, process)
    case Idle => w
    case Called(call) => At(w, process, Screened(w.store, call))
    case Seeking(id, now) => At(w, process, Sought(w.store, id, now))
    case Retiring(id) => At(w.(store := Retired(w.store, id)), process, Idle)
    case Weighing(call, row) =>
      At(w, process, if PassesRisk(w.store, call, row.ticket) then Claiming(call, row) else Idle)
    case Claiming(call, row) =>
      if call.id in w.store.executions then At(w, process, Idle)
      else At(w.(store := ClaimInserted(w.store, call.id, RequestOf(row), call.now)), process, Sending(call, row))
    case Sending(call, row) =>
      At(w.(posts := w.posts + [PostOf(call, row, answer)], sent := w.sent + [w.clock]),
         process, Recording(UpdateAfter(call.id, row, call.now, answer), EventAfter(row, answer)))
    case Recording(update, kind) =>
      At(w.(store := Updated(w.store, update)), process, Logging(update.id, kind, update.at))
    case Logging(id, kind, now) => At(w.(store := Logged(w.store, kind, id, now)), process, Idle)
    case Asking(id, orderId, now) =>
      match answer
      case Accepted(report) =>
        At(w, process, Recording(UpdateReported(id, orderId, report, now), EventReported(report)))
      case _ => At(w, process, Idle)
  }

  function Step(w: World, act: Act): World {
    match act
    case Propose(ticket) => Proposed(w, ticket)
    case Review(id, approve, approver, expected, reason, now) =>
      Reviewed(w, id, approve, approver, expected, reason, now)
    case Begin(process, call) => if PointOf(w, process) == Idle then At(w, process, Called(call)) else w
    case Ask(process, id, now) => if PointOf(w, process) == Idle then At(w, process, Seeking(id, now)) else w
    case Advance(process, answer) => Advanced(w, process, answer)
    case Crash(process) => At(w, process, Idle)
    case Tick(now) => if now > w.clock then w.(clock := now) else w
  }

  function Steps(w: World, acts: seq<Act>): World
    decreases |acts|
  {
    if acts == [] then w else Steps(Step(w, acts[0]), acts[1..])
  }

  lemma {:induction false} StepsAppend(w: World, a: seq<Act>, b: seq<Act>)
    ensures Steps(w, a + b) == Steps(Steps(w, a), b)
    decreases |a|
  {
    hide Step;
    if a == [] {
      assert a + b == b;
    } else {
      assert (a + b)[1..] == a[1..] + b;
      StepsAppend(Step(w, a[0]), a[1..], b);
    }
  }

  lemma StepsSnoc(w: World, acts: seq<Act>, act: Act)
    ensures Steps(w, acts + [act]) == Step(Steps(w, acts), act)
  {
    hide Step;
    StepsAppend(w, acts, [act]);
    assert [act][1..] == [];
    assert Steps(Steps(w, acts), [act]) == Steps(Step(Steps(w, acts), act), []);
  }

  lemma TwoSteps(w: World, a: Act, b: Act)
    ensures Steps(w, [a, b]) == Step(Step(w, a), b)
  {
    hide Step;
    assert [a, b][1..] == [b] && [b][1..] == [];
    assert Steps(Step(w, a), [b]) == Steps(Step(Step(w, a), b), []);
  }

  lemma ThreeSteps(w: World, a: Act, b: Act, c: Act)
    ensures Steps(w, [a, b, c]) == Step(Step(Step(w, a), b), c)
  {
    hide Step;
    assert [a, b, c][1..] == [b, c];
    TwoSteps(Step(w, a), b, c);
  }

  lemma FourSteps(w: World, a: Act, b: Act, c: Act, d: Act)
    ensures Steps(w, [a, b, c, d]) == Step(Step(Step(Step(w, a), b), c), d)
  {
    hide Step;
    assert [a, b, c, d][1..] == [b, c, d] && [b, c, d][1..] == [c, d];
    TwoSteps(Step(Step(w, a), b), c, d);
  }

  // ---------- the invariant ----------

  /** The exact ticket of this proposal was approved before it expired. */
  ghost predicate Endorsed(w: World, id: string) {
    id in w.store.proposals
    && exists a | a in w.approvals ::
         a.id == id && a.hash == Fingerprint(w.store.proposals[id].ticket)
           && a.at < w.store.proposals[id].ticket.expiresAt
  }

  predicate Decidable(status: ProposalStatus) { status == Pending || status == Rejected }

  /** Which proposal status goes with which execution state. */
  predicate Coupled(state: ExecutionState, status: ProposalStatus) {
    match state
    case ExecClaimed => status == Approved || status == Expired
    case ExecSubmitted => status == Submitted
    case ExecUnknown => status == ReconciliationRequired
    case ExecFilled => status == Filled
    case ExecFailed => status == Failed
  }

  predicate TouchedBroker(status: ProposalStatus) {
    status == Submitted || status == Filled || status == Failed || status == ReconciliationRequired
  }

  ghost predicate ProposalOk(w: World, id: string)
    requires id in w.store.proposals
  {
    var row := w.store.proposals[id];
    && row.hash == Fingerprint(row.ticket)
    && (row.status == Approved ==> Endorsed(w, id))
    && (TouchedBroker(row.status) ==> id in w.store.executions)
  }

  predicate ExecutionOk(s: Store, id: string)
    requires id in s.executions
  {
    id in s.proposals && Coupled(s.executions[id].state, s.proposals[id].status)
  }

  /** A process past the screening holds the stored ticket, which was approved and is no longer open
      to a decision. */
  ghost predicate Holds(w: World, call: Call, row: Proposal) {
    && Endorsed(w, call.id)
    && w.store.proposals[call.id].ticket == row.ticket && row.hash == Fingerprint(row.ticket)
    && !Decidable(w.store.proposals[call.id].status)
    && call.now < row.ticket.expiresAt
  }

  ghost predicate NotPosted(w: World, id: string) {
    forall p | p in w.posts :: p.id != id
  }

  ghost predicate PointOk(w: World, point: Point) {
    match point
    case Weighing(call, row) => Holds(w, call, row)
    case Claiming(call, row) => Holds(w, call, row)
    case Sending(call, row) => Holds(w, call, row) && call.id in w.store.executions && NotPosted(w, call.id)
    case Recording(u, _) => u.id in w.store.executions && u.state != ExecClaimed && Coupled(u.state, u.status)
    case Asking(id, _, _) => id in w.store.executions
    case _ => true
  }

  /** The order sent is the approved one, approved before the ticket's expiry by a call that read the
      clock before it too. */
  ghost predicate PostOk(w: World, p: Post) {
    && p.id in w.store.executions && Endorsed(w, p.id)
    && (var ticket := w.store.proposals[p.id].ticket;
        p.hash == Fingerprint(ticket) && p.ticker == ticket.ticker && p.quantity == ticket.quantity
        && p.readAt < ticket.expiresAt)
  }

  ghost predicate StoreOk(w: World) {
    && (forall id | id in w.store.proposals :: ProposalOk(w, id))
    && (forall id | id in w.store.executions :: ExecutionOk(w.store, id))
  }

  ghost predicate PointsOk(w: World) {
    forall n | n in w.points :: PointOk(w, w.points[n])
  }

  /** No two processes are about to send the same order. */
  ghost predicate OneSender(w: World) {
    forall m, n | m in w.points && n in w.points && w.points[m].Sending? && w.points[n].Sending?
                  && w.points[m].call.id == w.points[n].call.id :: m == n
  }

  ghost predicate PostsOk(w: World) {
    && (forall p | p in w.posts :: PostOk(w, p))
    && (forall i, j | 0 <= i < j < |w.posts| :: w.posts[i].id != w.posts[j].id)
  }

  ghost predicate Safe(w: World) {
    StoreOk(w) && PointsOk(w) && OneSender(w) && PostsOk(w)
  }
}
