/** The weekly trade limit over serial runs: executions and reconciliations one after another, each of
    which may crash after any step, while the clock moves on between any two steps and never back
    (src/japan_agent/risk/engine.py:227-234, src/japan_agent/execute/service.py:151-182,
    src/japan_agent/storage.py:474-483). An order counts for the week in which it is sent; the database
    knows only the reading its call took before. */
module WeeklyLimit {
  import opened Prelude
  import opened Time
  import opened RiskEngine
  import opened Storage
  import opened Execution
  import opened Protocol
  import opened ProtocolSafety

  /** One command run to its end or to a crash, with what the clock is moved to before each of its steps;
      or time passing between two commands. */
  datatype Turn =
    | Wait(until: int)
    | Submit(ticket: TradeTicket)
    | Judge(id: string, approve: bool, approver: string, expected: TicketHash, reason: Option<string>, now: int)
    | Execute(call: Call, answer: Answer, ticks: seq<int>)
    | Reconcile(id: string, now: int, answer: Answer, ticks: seq<int>)

  /** Screen, weigh, claim, send, record and log. */
  const WHOLE := 6

  function Stirred(w: World, tick: int, answer: Answer): World { Step(Step(w, Tick(tick)), Advance(0, answer)) }

  function Advances(w: World, answer: Answer, ticks: seq<int>): World
    decreases |ticks|
  {
    if ticks == [] then w else Advances(Stirred(w, ticks[0], answer), answer, ticks[1..])
  }

  function Turned(w: World, turn: Turn): World {
    match turn
    case Wait(until) => Step(w, Tick(until))
    case Submit(ticket) => Step(w, Propose(ticket))
    case Judge(id, approve, approver, expected, reason, now) =>
      Step(w, Review(id, approve, approver, expected, reason, now))
    case Execute(call, answer, ticks) => Step(Advances(Step(w, Begin(0, call)), answer, ticks), Crash(0))
    case Reconcile(id, now, answer, ticks) => Step(Advances(Step(w, Ask(0, id, now)), answer, ticks), Crash(0))
  }

  function Turns(w: World, turns: seq<Turn>): World
    decreases |turns|
  {
    if turns == [] then w else Turns(Turned(w, turns[0]), turns[1..])
  }

  /** A command reads the clock as it starts. */
  predicate Punctual(w: World, turn: Turn) {
    match turn
    case Execute(call, _, _) => call.now == w.clock
    case Reconcile(_, now, _, _) => now == w.clock
    case _ => true
  }

  predicate PunctualAll(w: World, turns: seq<Turn>)
    decreases |turns|
  {
    turns == [] || (Punctual(w, turns[0]) && PunctualAll(Turned(w, turns[0]), turns[1..]))
  }

  // ---------- counting ----------

  /** Proposals with an order whose call read the clock in the week that starts at `monday`, not rejected
      by the broker and recorded in the database. */
  ghost function LiveIds(w: World, monday: int): set<string> {
    set p | p in w.posts && Live(w, p, monday) :: p.id
  }

  predicate Live(w: World, p: Post, monday: int) {
    !p.answer.Refused? && WeekStart(p.readAt) == monday && OnRecord(w, p.id)
  }

  predicate OnRecord(w: World, id: string) {
    id in w.store.executions && w.store.executions[id].state != ExecClaimed
  }

  /** The `i`th order left in the week that starts at `monday` and was not rejected by the broker. */
  predicate SentIn(w: World, i: nat, monday: int) {
    i < |w.posts| && i < |w.sent| && !w.posts[i].answer.Refused? && WeekStart(w.sent[i]) == monday
  }

  ghost function SentIds(w: World, monday: int): set<string> {
    set i: nat | i < |w.posts| && SentIn(w, i, monday) :: w.posts[i].id
  }

  /** As above, but the process crashed before it recorded the answer. */
  ghost function LostIds(w: World, monday: int): set<string> {
    set i: nat | i < |w.posts| && SentIn(w, i, monday) && !OnRecord(w, w.posts[i].id) :: w.posts[i].id
  }

  /** As above, but the call read the clock before that Monday. */
  ghost function StraddlingIds(w: World, monday: int): set<string> {
    set i: nat | i < |w.posts| && SentIn(w, i, monday) && w.posts[i].readAt < monday :: w.posts[i].id
  }

  predicate CountedId(s: Store, id: string, since: int, now: int) {
    SubmittedSince(s, id, since) && s.executions[id].submittedAt.value >= WeekStart(now)
  }

  /** The executions the weekly count sees. */
  function WeekIds(s: Store, claims: seq<string>, since: int, now: int): set<string> {
    set id | id in claims && CountedId(s, id, since, now)
  }

  predicate Distinct(ids: seq<string>) {
    forall i, j | 0 <= i < j < |ids| :: ids[i] != ids[j]
  }

  lemma {:induction false} ThisWeekAppend(a: seq<int>, b: seq<int>, now: int)
    ensures ThisWeek(a + b, now) == ThisWeek(a, now) + ThisWeek(b, now)
  {
    hide WeekStart;
    if a == [] {
      assert a + b == b;
    } else {
      assert (a + b)[1..] == a[1..] + b;
      ThisWeekAppend(a[1..], b, now);
    }
  }

  /** The weekly count of the fetched times is the number of executions submitted this week. */
  lemma {:induction false} WeekCount(s: Store, claims: seq<string>, since: int, now: int)
    requires Distinct(claims)
    ensures ThisWeek(SubmittedTimes(s, claims, since), now) == |WeekIds(s, claims, since, now)|
  {
    hide WeekStart;
    if claims == [] {
      assert WeekIds(s, claims, since, now) == {};
    } else {
      var init, id := claims[..|claims| - 1], claims[|claims| - 1];
      var tail := if SubmittedSince(s, id, since) then [s.executions[id].submittedAt.value] else [];
      WeekCount(s, init, since, now);
      ThisWeekAppend(SubmittedTimes(s, init, since), tail, now);
      WeekIdsSnoc(s, init, id, since, now);
      assert claims == init + [id];
    }
  }

  lemma WeekIdsSnoc(s: Store, init: seq<string>, id: string, since: int, now: int)
    requires Distinct(init + [id])
    ensures WeekIds(s, init + [id], since, now) ==
            WeekIds(s, init, since, now) + if CountedId(s, id, since, now) then {id} else {}
    ensures Distinct(init) && id !in WeekIds(s, init, since, now)
  {
    hide CountedId;
    var all := init + [id];
    assert all[|init|] == id;
    assert forall i | 0 <= i < |init| :: all[i] == init[i];
  }

  lemma SubsetSize<T>(a: set<T>, b: set<T>)
    requires a <= b
    ensures |a| <= |b|
  {
    assert b == a + (b - a);
  }

  // ---------- the serial invariant ----------

  /** A recorded order's submission time lies between its call's reading and the running command's. */
  ghost predicate PostTracked(w: World, p: Post, clock: int) {
    && p.readAt <= clock
    && (p.answer.Refused? || p.id !in w.store.executions || w.store.executions[p.id].state == ExecClaimed
        || (w.store.executions[p.id].submittedAt.Some?
            && p.readAt <= w.store.executions[p.id].submittedAt.value <= clock))
  }

  ghost predicate Tracked(w: World, clock: int) {
    && (forall p | p in w.posts :: PostTracked(w, p, clock))
    && Distinct(w.store.claims) && (forall id :: id in w.store.claims <==> id in w.store.executions)
    && (forall id | id in w.store.executions && w.store.executions[id].orderId.Some? ::
          w.store.executions[id].state != ExecClaimed)
  }

  ghost predicate WeeksOk(w: World) {
    forall monday :: |LiveIds(w, monday)| <= MAX_TRADES_PER_WEEK
  }

  ghost predicate Room(w: World, now: int) {
    |LiveIds(w, WeekStart(now))| < MAX_TRADES_PER_WEEK
  }

  /** What the one running process has established. */
  ghost predicate PointSerial(w: World, clock: int, point: Point) {
    match point
    case Called(call) => call.now == clock
    case Seeking(_, now) => now == clock
    case Weighing(call, _) => call.now == clock
    case Claiming(call, row) => call.now == clock && PassesRisk(w.store, call, row.ticket)
    case Sending(call, _) =>
      call.now == clock && Room(w, clock)
      && call.id in w.store.executions && w.store.executions[call.id].state == ExecClaimed
    case Recording(u, _) =>
      u.at == clock && u.id in w.store.executions
      && (w.store.executions[u.id].state == ExecClaimed ==>
            Room(w, clock)
            && forall p | p in w.posts && p.id == u.id ::
                 p.readAt == clock && (!p.answer.Refused? ==> MayBeLive(u.state)))
    case Asking(id, _, now) => now == clock && id in w.store.executions && w.store.executions[id].state != ExecClaimed
    case _ => true
  }

  ghost predicate Serial(w: World, clock: int) {
    && Safe(w) && Tracked(w, clock) && WeeksOk(w)
    && (forall n | n in w.points && n != 0 :: w.points[n] == Idle)
    && PointSerial(w, clock, PointOf(w, 0))
  }

  /** Fewer than three counted submissions leave room for one more order this week: every recorded
      order of the week was submitted since Monday, and Monday is less than seven days ago. */
  lemma RiskLeavesRoom(w: World, call: Call, ticket: TradeTicket)
    requires Tracked(w, call.now) && PassesRisk(w.store, call, ticket)
    ensures Room(w, call.now)
  {
    hide WithinLimits, TypeForbidden;
    var s, since := w.store, call.now - WEEK;
    ExecutableIff(ticket, RuleFor(call, ticket.ticker), call.snapshot.portfolio, call.quote.priceGbp,
                  SubmittedTimes(s, s.claims, since), call.now);
    WeekCount(s, s.claims, since, call.now);
    WeekHolds(call.now);
    forall p | p in w.posts && Live(w, p, WeekStart(call.now))
      ensures p.id in WeekIds(s, s.claims, since, call.now)
    {
      assert PostTracked(w, p, call.now);
      WeekHolds(p.readAt);
    }
    SubsetSize(LiveIds(w, WeekStart(call.now)), WeekIds(s, s.claims, since, call.now));
  }

  /** The part of the invariant that does not mention processes. */
  lemma LiveSame(w: World, w': World)
    requires w'.posts == w.posts
    requires forall p | p in w.posts :: p.id in w.store.executions && p.id in w'.store.executions
               && (w.store.executions[p.id].state == ExecClaimed <==> w'.store.executions[p.id].state == ExecClaimed)
    ensures forall monday :: LiveIds(w', monday) == LiveIds(w, monday)
  {
    forall monday
      ensures LiveIds(w', monday) == LiveIds(w, monday)
    {
      assert forall p | p in w.posts :: Live(w', p, monday) <==> Live(w, p, monday);
    }
  }

  lemma SafePosted(w: World)
    requires Safe(w)
    ensures forall p | p in w.posts :: p.id in w.store.executions
  {
    hide StoreOk, PointsOk, OneSender, Endorsed;
    forall p | p in w.posts
      ensures p.id in w.store.executions
    {
      assert PostOk(w, p);
    }
  }

  // ---------- one step of the one running process ----------

  lemma SerialSame(w: World, w': World, clock: int)
    requires Serial(w, clock) && Safe(w')
    requires w'.posts == w.posts && w'.store.executions == w.store.executions && w'.store.claims == w.store.claims
    requires forall n | n in w'.points && n != 0 :: w'.points[n] == Idle
    requires PointSerial(w', clock, PointOf(w', 0))
    ensures Serial(w', clock)
  {
    hide Safe, PointSerial;
    forall p | p in w'.posts
      ensures PostTracked(w', p, clock)
    {
      assert PostTracked(w, p, clock);
    }
    forall monday
      ensures |LiveIds(w', monday)| <= MAX_TRADES_PER_WEEK
    {
      assert LiveIds(w', monday) == LiveIds(w, monday);
      assert |LiveIds(w, monday)| <= MAX_TRADES_PER_WEEK;
    }
  }

  lemma ClaimSerial(w: World, clock: int, call: Call, row: Proposal)
    requires Serial(w, clock) && PointOf(w, 0) == Claiming(call, row) && call.id !in w.store.executions
    ensures var w' := At(w.(store := ClaimInserted(w.store, call.id, RequestOf(row), call.now)), 0, Sending(call, row));
            Safe(w') ==> Serial(w', clock)
  {
    hide Safe, PassesRisk;
    var w' := At(w.(store := ClaimInserted(w.store, call.id, RequestOf(row), call.now)), 0, Sending(call, row));
    RiskLeavesRoom(w, call, row.ticket);
    SafePosted(w);
    LiveSame(w, w');
    forall p | p in w'.posts
      ensures PostTracked(w', p, clock)
    {
      assert PostTracked(w, p, clock);
    }
    ClaimsGrow(w, call.id, RequestOf(row), call.now);
    hide Tracked;
    LivesBounded(w, w');
  }

  lemma LivesBounded(w: World, w': World)
    requires WeeksOk(w) && forall monday :: LiveIds(w', monday) == LiveIds(w, monday)
    ensures WeeksOk(w')
  {
    forall monday
      ensures |LiveIds(w', monday)| <= MAX_TRADES_PER_WEEK
    {
      assert LiveIds(w', monday) == LiveIds(w, monday);
    }
  }

  lemma ClaimsGrow(w: World, id: string, request: Request, now: int)
    requires id !in w.store.executions && Distinct(w.store.claims)
    requires forall x :: x in w.store.claims <==> x in w.store.executions
    ensures var s := ClaimInserted(w.store, id, request, now);
            Distinct(s.claims) && forall x :: x in s.claims <==> x in s.executions
  {
    assert id !in w.store.claims;
  }

  lemma AnswerLive(id: string, row: Proposal, now: int, answer: Answer)
    requires !answer.Refused?
    ensures MayBeLive(UpdateAfter(id, row, now, answer).state)
  {
  }

  lemma SendSerial(w: World, clock: int, call: Call, row: Proposal, answer: Answer)
    requires Serial(w, clock) && PointOf(w, 0) == Sending(call, row)
    requires Safe(Advanced(w, 0, answer)) && NotPosted(w, call.id)
    ensures Serial(Advanced(w, 0, answer), clock)
  {
    hide Safe, EventAfter, PassesRisk, UpdateAfter, WeekStart;
    var w' := Advanced(w, 0, answer);
    var post := PostOf(call, row, answer);
    UpdateAfterCoupled(call.id, row, call.now, answer);
    if !answer.Refused? {
      AnswerLive(call.id, row, call.now, answer);
    }
    forall p | p in w'.posts
      ensures PostTracked(w', p, clock)
      ensures p in w.posts || p == post
    {
      if p in w.posts {
        assert PostTracked(w, p, clock);
      }
    }
    forall monday
      ensures LiveIds(w', monday) == LiveIds(w, monday)
    {
      assert forall p | p in w.posts :: p in w'.posts;
    }
    hide Tracked, LiveIds;
    LivesBounded(w, w');
  }

  /** Recording the answer to an order sent this week adds at most its own proposal to the count. */
  lemma RecordAdds(w: World, w': World, clock: int, id: string)
    requires WeeksOk(w) && Room(w, clock) && w'.posts == w.posts
    requires forall p | p in w.posts && p.id == id :: p.readAt == clock
    requires forall p | p in w.posts && p.id != id && Live(w', p, WeekStart(p.readAt)) ::
             Live(w, p, WeekStart(p.readAt))
    ensures WeeksOk(w')
  {
    hide WeekStart;
    forall monday
      ensures |LiveIds(w', monday)| <= MAX_TRADES_PER_WEEK
    {
      if monday == WeekStart(clock) {
        assert LiveIds(w', monday) <= LiveIds(w, monday) + {id};
        SubsetSize(LiveIds(w', monday), LiveIds(w, monday) + {id});
      } else {
        assert LiveIds(w', monday) <= LiveIds(w, monday);
        SubsetSize(LiveIds(w', monday), LiveIds(w, monday));
      }
    }
  }

  lemma RecordTracked(w: World, clock: int, u: Update, kind: EventKind)
    requires Serial(w, clock) && PointOf(w, 0) == Recording(u, kind) && u.state != ExecClaimed
    ensures Tracked(w.(store := Updated(w.store, u)), clock)
  {
    hide Safe, WeeksOk, Room;
    var w' := w.(store := Updated(w.store, u));
    forall p | p in w'.posts
      ensures PostTracked(w', p, clock)
    {
      assert PostTracked(w, p, clock);
    }
  }

  lemma RecordWeeks(w: World, clock: int, u: Update, kind: EventKind)
    requires Serial(w, clock) && PointOf(w, 0) == Recording(u, kind) && u.state != ExecClaimed
    ensures WeeksOk(w.(store := Updated(w.store, u)))
  {
    hide Tracked;
    var w' := w.(store := Updated(w.store, u));
    SafePosted(w);
    hide Safe;
    if w.store.executions[u.id].state == ExecClaimed {
      RecordAdds(w, w', clock, u.id);
    } else {
      LiveSame(w, w');
      LivesBounded(w, w');
    }
  }

  lemma AdvanceSerial(w: World, clock: int, answer: Answer)
    requires Serial(w, clock)
    ensures Serial(Step(w, Advance(0, answer)), clock)
  {
    hide PassesRisk, UpdateAfter, EventAfter, Tracked, WeeksOk, Room, Safe;
    var w' := Step(w, Advance(0, answer));
    StepSafe(w, Advance(0, answer));
    if 0 in w.points {
      SafePoint(w, 0);
      match w.points[0] {
        case Called(call) => ReadSerial(w, clock, answer);
        case Seeking(id, now) => ReadSerial(w, clock, answer);
        case Claiming(call, row) =>
          if call.id in w.store.executions {
            SerialSame(w, w', clock);
          } else {
            ClaimSerial(w, clock, call, row);
          }
        case Sending(call, row) => SendSerial(w, clock, call, row, answer);
        case Recording(u, kind) =>
          RecordTracked(w, clock, u, kind);
          RecordWeeks(w, clock, u, kind);
          RecordedSerial(w, clock, u, kind);
        case _ => SerialSame(w, w', clock);
      }
    }
  }

  /** The step that reads the proposal or the execution. */
  lemma ReadSerial(w: World, clock: int, answer: Answer)
    requires Serial(w, clock) && (PointOf(w, 0).Called? || PointOf(w, 0).Seeking?)
    ensures Serial(Step(w, Advance(0, answer)), clock)
  {
    hide Safe, WeeksOk, FreshInputs, Replay, PostTracked;
    StepSafe(w, Advance(0, answer));
    assert PointSerial(Step(w, Advance(0, answer)), clock, PointOf(Step(w, Advance(0, answer)), 0));
    hide Tracked;
    SerialSame(w, Step(w, Advance(0, answer)), clock);
  }

  lemma RecordedSerial(w: World, clock: int, u: Update, kind: EventKind)
    requires Serial(w, clock)
    requires Tracked(w.(store := Updated(w.store, u)), clock) && WeeksOk(w.(store := Updated(w.store, u)))
    ensures var w' := At(w.(store := Updated(w.store, u)), 0, Logging(u.id, kind, u.at));
            Safe(w') ==> Serial(w', clock)
  {
    hide Safe, Updated;
    var w1 := w.(store := Updated(w.store, u));
    var w' := At(w1, 0, Logging(u.id, kind, u.at));
    forall p | p in w'.posts
      ensures PostTracked(w', p, clock)
    {
      assert PostTracked(w1, p, clock);
    }
    forall monday
      ensures LiveIds(w', monday) == LiveIds(w1, monday)
    {
    }
    LivesBounded(w1, w');
  }

  lemma TickSerial(w: World, clock: int, now: int)
    requires Serial(w, clock)
    ensures Serial(Step(w, Tick(now)), clock)
  {
    hide Safe, Tracked, WeeksOk, PassesRisk;
    var w' := Step(w, Tick(now));
    StepSafe(w, Tick(now));
    assert Room(w', clock) <==> Room(w, clock) by {
      assert LiveIds(w', WeekStart(clock)) == LiveIds(w, WeekStart(clock));
    }
    assert PointOf(w', 0) == PointOf(w, 0);
    hide Room;
    SerialSame(w, w', clock);
  }

  lemma StirredSerial(w: World, clock: int, tick: int, answer: Answer)
    requires Serial(w, clock)
    ensures Serial(Stirred(w, tick, answer), clock)
  {
    hide Serial, Step;
    TickSerial(w, clock, tick);
    AdvanceSerial(Step(w, Tick(tick)), clock, answer);
  }

  lemma {:induction false} AdvancesSerial(w: World, clock: int, answer: Answer, ticks: seq<int>)
    requires Serial(w, clock)
    ensures Serial(Advances(w, answer, ticks), clock)
    decreases |ticks|
  {
    hide Serial, Stirred;
    if ticks != [] {
      StirredSerial(w, clock, ticks[0], answer);
      AdvancesSerial(Stirred(w, ticks[0], answer), clock, answer, ticks[1..]);
    }
  }

  // ---------- readings and sendings in order ----------

  predicate BeforeSending(point: Point) {
    point.Called? || point.Weighing? || point.Claiming? || point.Sending?
  }

  /** Each order left after its call read the clock and before the next call did. */
  ghost predicate Sequenced(w: World) {
    && |w.sent| == |w.posts|
    && (forall i | 0 <= i < |w.posts| :: w.posts[i].readAt <= w.sent[i] <= w.clock)
    && (forall i, j | 0 <= i < j < |w.posts| :: w.sent[i] <= w.posts[j].readAt)
    && (BeforeSending(PointOf(w, 0)) ==>
          var now := PointOf(w, 0).call.now;
          now <= w.clock && forall i | 0 <= i < |w.sent| :: w.sent[i] <= now)
  }

  lemma AdvanceSequenced(w: World, answer: Answer)
    requires Sequenced(w)
    ensures Sequenced(Step(w, Advance(0, answer))) && Step(w, Advance(0, answer)).clock == w.clock
  {
    hide PassesRisk, UpdateAfter, EventAfter, FreshInputs, Replay, Retired, Updated, Logged, ClaimInserted,
         UpdateReported, EventReported;
    match PointOf(w, 0) {
      case Called(call) => ScreenedKeepsCall(w.store, call);
        hide Screened;
      case _ => hide Screened;
    }
  }

  lemma ScreenedKeepsCall(s: Store, call: Call)
    ensures BeforeSending(Screened(s, call)) ==> Screened(s, call).Weighing? && Screened(s, call).call == call
  {
    hide FreshInputs, Replay;
  }

  lemma StirredSequenced(w: World, tick: int, answer: Answer)
    requires Sequenced(w)
    ensures Sequenced(Stirred(w, tick, answer)) && w.clock <= Stirred(w, tick, answer).clock
  {
    OutsideSequenced(w, Tick(tick));
    hide Sequenced, Step;
    AdvanceSequenced(Step(w, Tick(tick)), answer);
  }

  lemma {:induction false} AdvancesSequenced(w: World, answer: Answer, ticks: seq<int>)
    requires Sequenced(w)
    ensures Sequenced(Advances(w, answer, ticks)) && w.clock <= Advances(w, answer, ticks).clock
    decreases |ticks|
  {
    hide Sequenced, Stirred;
    if ticks != [] {
      StirredSequenced(w, ticks[0], answer);
      AdvancesSequenced(Stirred(w, ticks[0], answer), answer, ticks[1..]);
    }
  }

  lemma CallSequenced(w: World, act: Act)
    requires Sequenced(w) && PointOf(w, 0) == Idle && (act.Begin? || act.Ask?) && act.process == 0
    requires act.Begin? ==> act.call.now == w.clock
    ensures Sequenced(Step(w, act)) && Step(w, act).clock == w.clock
  {
  }

  lemma OutsideSequenced(w: World, act: Act)
    requires Sequenced(w) && (act.Propose? || act.Review? || act == Crash(0) || act.Tick?)
    ensures Sequenced(Step(w, act)) && w.clock <= Step(w, act).clock
  {
    hide Decided;
  }

  // ---------- turns ----------

  /** Between turns the process is idle. */
  ghost predicate Resting(w: World) {
    Serial(w, w.clock) && PointOf(w, 0) == Idle && Sequenced(w)
  }

  lemma ClockMoves(w: World, clock: int, later: int)
    requires Serial(w, clock) && PointOf(w, 0) == Idle && clock <= later
    ensures Serial(w, later)
  {
    hide Safe, WeeksOk;
    forall p | p in w.posts
      ensures PostTracked(w, p, later)
    {
      assert PostTracked(w, p, clock);
    }
  }

  lemma CallSerial(w: World, act: Act, clock: int)
    requires Serial(w, clock) && PointOf(w, 0) == Idle && (act.Begin? || act.Ask?) && act.process == 0
    requires if act.Begin? then act.call.now == clock else act.now == clock
    ensures Serial(Step(w, act), clock)
  {
    hide Safe, Tracked, WeeksOk, PassesRisk;
    StepSafe(w, act);
    SerialSame(w, Step(w, act), clock);
  }

  lemma CrashSerial(w: World, clock: int)
    requires Serial(w, clock)
    ensures Serial(Step(w, Crash(0)), clock)
  {
    hide Safe, Tracked, WeeksOk;
    StepSafe(w, Crash(0));
    SerialSame(w, Step(w, Crash(0)), clock);
  }

  lemma OutsideSerial(w: World, clock: int, act: Act)
    requires Serial(w, clock) && PointOf(w, 0) == Idle && (act.Propose? || act.Review?)
    ensures Serial(Step(w, act), clock) && PointOf(Step(w, act), 0) == Idle && Step(w, act).clock == w.clock
  {
    hide Safe, Tracked, WeeksOk;
    StepSafe(w, act);
    SerialSame(w, Step(w, act), clock);
  }

  lemma CrashRests(w: World, clock: int)
    requires Serial(w, clock) && Sequenced(w) && clock <= w.clock
    ensures Resting(Step(w, Crash(0)))
  {
    CrashSerial(w, clock);
    OutsideSequenced(w, Crash(0));
    var w' := Step(w, Crash(0));
    assert PointOf(w', 0) == Idle && w'.clock == w.clock;
    hide Serial, Sequenced, Step;
    ClockMoves(w', clock, w.clock);
  }

  /** A command from its call to its end. */
  lemma CommandRests(w: World, act: Act, answer: Answer, ticks: seq<int>)
    requires Resting(w) && (act.Begin? || act.Ask?) && act.process == 0
    requires if act.Begin? then act.call.now == w.clock else act.now == w.clock
    ensures Resting(Step(Advances(Step(w, act), answer, ticks), Crash(0)))
  {
    hide Serial, Sequenced, Step;
    CallSerial(w, act, w.clock);
    CallSequenced(w, act);
    AdvancesSerial(Step(w, act), w.clock, answer, ticks);
    AdvancesSequenced(Step(w, act), answer, ticks);
    CrashRests(Advances(Step(w, act), answer, ticks), w.clock);
  }

  lemma WaitRests(w: World, until: int)
    requires Resting(w)
    ensures Resting(Step(w, Tick(until)))
  {
    TickSerial(w, w.clock, until);
    OutsideSequenced(w, Tick(until));
    var w' := Step(w, Tick(until));
    assert PointOf(w', 0) == Idle;
    hide Serial, Sequenced, Step;
    ClockMoves(w', w.clock, w'.clock);
  }

  lemma TurnResting(w: World, turn: Turn)
    requires Resting(w) && Punctual(w, turn)
    ensures Resting(Turned(w, turn))
  {
    hide Serial, Sequenced, Step;
    match turn {
      case Wait(until) => WaitRests(w, until);
      case Submit(ticket) =>
        OutsideSerial(w, w.clock, Propose(ticket));
        OutsideSequenced(w, Propose(ticket));
      case Judge(id, approve, approver, expected, reason, now) =>
        OutsideSerial(w, w.clock, Review(id, approve, approver, expected, reason, now));
        OutsideSequenced(w, Review(id, approve, approver, expected, reason, now));
      case Execute(call, answer, ticks) => CommandRests(w, Begin(0, call), answer, ticks);
      case Reconcile(id, now, answer, ticks) => CommandRests(w, Ask(0, id, now), answer, ticks);
    }
  }

  lemma {:induction false} TurnsResting(w: World, turns: seq<Turn>)
    requires Resting(w) && PunctualAll(w, turns)
    ensures Resting(Turns(w, turns))
    decreases |turns|
  {
    hide Resting, Turned, Punctual;
    if turns != [] {
      TurnResting(w, turns[0]);
      TurnsResting(Turned(w, turns[0]), turns[1..]);
    }
  }

  lemma StartResting()
    ensures Resting(START)
  {
    forall monday
      ensures LiveIds(START, monday) == {}
    {
    }
  }

  // ---------- the limit ----------

  lemma AtMostOne<T>(s: set<T>)
    requires forall a, b | a in s && b in s :: a == b
    ensures |s| <= 1
  {
    if s != {} {
      var a :| a in s;
      assert s == {a};
    }
  }

  /** The next call after a straddling one reads the clock on or after the Monday. */
  lemma OneStraddles(w: World, monday: int)
    requires Sequenced(w)
    ensures |StraddlingIds(w, monday)| <= 1
  {
    forall a, b | a in StraddlingIds(w, monday) && b in StraddlingIds(w, monday)
      ensures a == b
    {
      var i: nat :| i < |w.posts| && SentIn(w, i, monday) && w.posts[i].readAt < monday && w.posts[i].id == a;
      var j: nat :| j < |w.posts| && SentIn(w, j, monday) && w.posts[j].readAt < monday && w.posts[j].id == b;
      WeekHolds(w.sent[i]);
      WeekHolds(w.sent[j]);
    }
    AtMostOne(StraddlingIds(w, monday));
  }

  lemma SentCovered(w: World, monday: int)
    requires Sequenced(w)
    ensures SentIds(w, monday) <= LiveIds(w, monday) + StraddlingIds(w, monday) + LostIds(w, monday)
  {
    forall id | id in SentIds(w, monday)
      ensures id in LiveIds(w, monday) + StraddlingIds(w, monday) + LostIds(w, monday)
    {
      var i: nat :| i < |w.posts| && SentIn(w, i, monday) && w.posts[i].id == id;
      var p := w.posts[i];
      SameWeek(w.sent[i], w.sent[i]);
      SameWeek(p.readAt, w.sent[i]);
      assert p in w.posts;
    }
  }

  /** THE WEEKLY LIMIT, with crashes: at most three of the orders sent in a week are not rejected by the
      broker, recorded, and of calls that read the clock in that week; and at most one is of a call that
      read it before that Monday. */
  lemma WeeklyLimitWithCrashes(turns: seq<Turn>, monday: int)
    requires PunctualAll(START, turns)
    ensures var w := Turns(START, turns);
            && |SentIds(w, monday)| <= MAX_TRADES_PER_WEEK + |StraddlingIds(w, monday)| + |LostIds(w, monday)|
            && |StraddlingIds(w, monday)| <= 1
  {
    hide Safe, Tracked, Sequenced;
    StartResting();
    TurnsResting(START, turns);
    var w := Turns(START, turns);
    assert |LiveIds(w, monday)| <= MAX_TRADES_PER_WEEK;
    OneStraddles(w, monday);
    SentCovered(w, monday);
    SubsetSize(SentIds(w, monday), LiveIds(w, monday) + StraddlingIds(w, monday) + LostIds(w, monday));
  }
}
