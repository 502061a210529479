/** Runs in which every execution is completed: the sequential `execute` and `reconcile` are the
    protocol's steps taken without interruption, no order is left unrecorded, and so a week's orders are
    at most three and the one, if any, whose call straddles its Monday. */
module SerialRuns {
  import opened RiskEngine
  import opened Storage
  import opened Execution
  import opened Protocol
  import opened ProtocolSafety
  import opened Submissions
  import opened WeeklyLimit

  // ---------- the service method is the protocol's steps ----------

  lemma AdvancesNext(w: World, answer: Answer, ticks: seq<int>)
    requires ticks != []
    ensures Advances(w, answer, ticks) == Advances(Stirred(w, ticks[0], answer), answer, ticks[1..])
  {
    hide Stirred;
  }

  /** An idle process does nothing but let time pass. */
  lemma {:induction false} IdleStays(w: World, answer: Answer, ticks: seq<int>)
    requires PointOf(w, 0) == Idle
    ensures var w' := Advances(w, answer, ticks);
            w'.store == w.store && w'.posts == w.posts && w'.sent == w.sent && PointOf(w', 0) == Idle
    decreases |ticks|
  {
    if ticks != [] {
      IdleStays(Stirred(w, ticks[0], answer), answer, ticks[1..]);
    }
  }

  /** The clock after these ticks. */
  function ClockAt(clock: int, ticks: seq<int>): int
    decreases |ticks|
  {
    if ticks == [] then clock else ClockAt(Later(clock, ticks[0]), ticks[1..])
  }

  function Later(clock: int, tick: int): int { if tick > clock then tick else clock }

  lemma ClockTwo(clock: int, a: int, b: int)
    ensures ClockAt(clock, [a, b]) == Later(Later(clock, a), b)
  {
    assert [a, b][1..] == [b] && [b][1..] == [];
    assert ClockAt(Later(clock, a), [b]) == ClockAt(Later(Later(clock, a), b), []);
  }

  lemma StirredPoint(w: World, tick: int, answer: Answer)
    ensures var w1, w2 := w.(clock := Later(w.clock, tick)), Stirred(w, tick, answer);
            && w2 == Advanced(w1, 0, answer) && w2.clock == w1.clock
  {
    hide PassesRisk, Screened, Updated, Logged, ClaimInserted, Retired, UpdateAfter, EventAfter;
  }

  /** Claim and send. */
  lemma ClaimAndSend(w: World, call: Call, row: Proposal, answer: Answer, a: int, b: int)
    requires PointOf(w, 0) == Claiming(call, row) && call.id !in w.store.executions
    ensures var w' := Stirred(Stirred(w, a, answer), b, answer);
            && w'.store == ClaimInserted(w.store, call.id, RequestOf(row), call.now)
            && w'.posts == w.posts + [PostOf(call, row, answer)] && w'.sent == w.sent + [ClockAt(w.clock, [a, b])]
            && w'.clock == ClockAt(w.clock, [a, b])
            && PointOf(w', 0) == Recording(UpdateAfter(call.id, row, call.now, answer), EventAfter(row, answer))
  {
    hide Updated, Logged, EventAfter, ClaimInserted, PassesRisk, UpdateAfter;
    ClockTwo(w.clock, a, b);
    var w1 := Stirred(w, a, answer);
    StirredPoint(w, a, answer);
    StirredPoint(w1, b, answer);
  }

  /** Record and log. */
  lemma RecordAndLog(w: World, u: Update, kind: EventKind, answer: Answer, a: int, b: int)
    requires PointOf(w, 0) == Recording(u, kind)
    ensures var w' := Stirred(Stirred(w, a, answer), b, answer);
            && w'.store == Logged(Updated(w.store, u), kind, u.id, u.at)
            && w'.posts == w.posts && w'.sent == w.sent && PointOf(w', 0) == Idle
            && w'.clock == ClockAt(w.clock, [a, b])
  {
    hide Updated, Logged, EventAfter, ClaimInserted, PassesRisk, UpdateAfter;
    ClockTwo(w.clock, a, b);
    StirredPoint(w, a, answer);
    StirredPoint(Stirred(w, a, answer), b, answer);
  }

  lemma ClockAppend(clock: int, a: seq<int>, b: seq<int>)
    ensures ClockAt(clock, a + b) == ClockAt(ClockAt(clock, a), b)
    decreases |a|
  {
    if a == [] {
      assert a + b == b;
    } else {
      assert (a + b)[1..] == a[1..] + b;
      ClockAppend(Later(clock, a[0]), a[1..], b);
    }
  }

  lemma {:induction false} AdvancesAppend(w: World, answer: Answer, a: seq<int>, b: seq<int>)
    ensures Advances(w, answer, a + b) == Advances(Advances(w, answer, a), answer, b)
    decreases |a|
  {
    hide Stirred;
    if a == [] {
      assert a + b == b;
    } else {
      assert (a + b)[1..] == a[1..] + b;
      AdvancesAppend(Stirred(w, a[0], answer), answer, a[1..], b);
    }
  }

  lemma AdvancesTwo(w: World, answer: Answer, a: int, b: int)
    ensures Advances(w, answer, [a, b]) == Stirred(Stirred(w, a, answer), b, answer)
  {
    hide Stirred;
    assert [a, b][1..] == [b] && [b][1..] == [];
    assert Advances(Stirred(w, a, answer), answer, [b])
           == Advances(Stirred(Stirred(w, a, answer), b, answer), answer, []);
  }

  /** Claim, send, record and log, from a process about to claim. */
  lemma ClaimRun(w: World, call: Call, row: Proposal, answer: Answer, ticks: seq<int>)
    requires PointOf(w, 0) == Claiming(call, row) && call.id !in w.store.executions && |ticks| == 4
    ensures var w' := Advances(w, answer, ticks);
            var claimed := ClaimInserted(w.store, call.id, RequestOf(row), call.now);
            && w'.store == Logged(Updated(claimed, UpdateAfter(call.id, row, call.now, answer)),
                                  EventAfter(row, answer), call.id, call.now)
            && w'.posts == w.posts + [PostOf(call, row, answer)] && w'.sent == w.sent + [ClockAt(w.clock, ticks[..2])]
            && w'.clock == ClockAt(w.clock, ticks)
            && PointOf(w', 0) == Idle
  {
    UpdateAfterCoupled(call.id, row, call.now, answer);
    hide Updated, Logged, EventAfter, ClaimInserted, UpdateAfter, Stirred, Advances, ClockAt;
    var a, b, c, d := ticks[0], ticks[1], ticks[2], ticks[3];
    assert ticks == [a, b] + [c, d] && ticks[..2] == [a, b];
    AdvancesAppend(w, answer, [a, b], [c, d]);
    AdvancesTwo(w, answer, a, b);
    ClaimAndSend(w, call, row, answer, a, b);
    var w2 := Advances(w, answer, [a, b]);
    AdvancesTwo(w2, answer, c, d);
    RecordAndLog(w2, UpdateAfter(call.id, row, call.now, answer), EventAfter(row, answer), answer, c, d);
    ClockAppend(w.clock, [a, b], [c, d]);
  }

  /** The two steps before the claim: the screening and the risk check. */
  lemma Screens(w: World, call: Call, answer: Answer, a: int, b: int)
    requires PointOf(w, 0) == Called(call)
    ensures var w' := Stirred(Stirred(w, a, answer), b, answer);
            && w'.posts == w.posts && w'.sent == w.sent && w'.clock == ClockAt(w.clock, [a, b])
            && w'.store == (if Screen(w.store, call).Expires? then Retired(w.store, call.id) else w.store)
            && PointOf(w', 0) ==
               (if Screen(w.store, call).Proceeds? && PassesRisk(w.store, call, Screen(w.store, call).row.ticket)
                then Claiming(call, Screen(w.store, call).row) else Idle)
  {
    hide Retired, PassesRisk, FreshInputs, Replay, Screen;
    ClockTwo(w.clock, a, b);
    StirredPoint(w, a, answer);
    StirredPoint(Stirred(w, a, answer), b, answer);
  }

  /** AN UNINTERRUPTED EXECUTE of the service leaves the rows and sends the order that the protocol's
      steps do, whatever time passes between them; the order leaves at the fourth step. */
  lemma ExecuteIsItsSteps(w: World, call: Call, answer: Answer, ticks: seq<int>)
    requires PointOf(w, 0) == Idle && |ticks| == WHOLE
    ensures var w' := Turned(w, Execute(call, answer, ticks));
            var (s, sent, _) := Executed(w.store, call, answer);
            && w'.store == s && w'.posts == w.posts + (if sent.Some? then [sent.value] else [])
            && w'.sent == w.sent + (if sent.Some? then [ClockAt(w.clock, ticks[..4])] else [])
  {
    hide Updated, Logged, EventAfter, UpdateAfter, ClaimInserted, PassesRisk, FreshInputs, Retired, Stirred, Advances,
         ClockAt, Replay;
    var a, b, rest := ticks[0], ticks[1], ticks[2..];
    var w1 := Step(w, Begin(0, call));
    assert w1 == At(w, 0, Called(call));
    assert ticks == [a, b] + rest && ticks[..4] == [a, b] + rest[..2];
    AdvancesAppend(w1, answer, [a, b], rest);
    AdvancesTwo(w1, answer, a, b);
    Screens(w1, call, answer, a, b);
    var w2 := Advances(w1, answer, [a, b]);
    ClockAppend(w.clock, [a, b], rest[..2]);
    CrashLeaves(Advances(w1, answer, ticks));
    hide Step;
    if PointOf(w2, 0).Claiming? {
      if call.id in w.store.executions {
        ClaimLost(w2, call, PointOf(w2, 0).row, answer, rest);
      } else {
        ClaimRun(w2, call, PointOf(w2, 0).row, answer, rest);
      }
    } else {
      IdleStays(w2, answer, rest);
    }
  }

  lemma ClaimLost(w: World, call: Call, row: Proposal, answer: Answer, ticks: seq<int>)
    requires PointOf(w, 0) == Claiming(call, row) && call.id in w.store.executions && ticks != []
    ensures var w' := Advances(w, answer, ticks); w'.store == w.store && w'.posts == w.posts && w'.sent == w.sent
  {
    hide PassesRisk;
    AdvancesNext(w, answer, ticks);
    IdleStays(Stirred(w, ticks[0], answer), answer, ticks[1..]);
  }

  /** The broker's answer to the one step of a reconcile that asks it. */
  function AnswerOf(lookup: Lookup): Answer {
    match lookup
    case Located(report) => Accepted(report)
    case Nowhere => Refused(404)
    case LookupFailed => Uncertain
  }

  /** Likewise an uninterrupted reconcile, whatever the broker answers. */
  lemma ReconcileIsItsSteps(w: World, id: string, lookup: Lookup, now: int, ticks: seq<int>)
    requires PointOf(w, 0) == Idle && |ticks| == 4
    ensures var w' := Turned(w, Reconcile(id, now, AnswerOf(lookup), ticks));
            w'.store == ReconciledBy(w.store, id, lookup, now).0 && w'.posts == w.posts
  {
    hide Updated, Logged, EventReported, Stirred, Advances, ClockAt;
    var answer := AnswerOf(lookup);
    var a, b, rest := ticks[0], ticks[1], ticks[2..];
    var w1 := Step(w, Ask(0, id, now));
    assert w1 == At(w, 0, Seeking(id, now));
    assert ticks == [a, b] + rest && rest == [ticks[2], ticks[3]];
    AdvancesAppend(w1, answer, [a, b], rest);
    AdvancesTwo(w1, answer, a, b);
    Looks(w1, id, now, lookup, a, b);
    var w2 := Advances(w1, answer, [a, b]);
    CrashLeaves(Advances(w1, answer, ticks));
    hide Step;
    if PointOf(w2, 0).Recording? {
      AdvancesTwo(w2, answer, ticks[2], ticks[3]);
      RecordAndLog(w2, PointOf(w2, 0).update, PointOf(w2, 0).kind, answer, ticks[2], ticks[3]);
    } else {
      IdleStays(w2, answer, rest);
    }
  }

  /** Read the execution and ask the broker. */
  lemma Looks(w: World, id: string, now: int, lookup: Lookup, a: int, b: int)
    requires PointOf(w, 0) == Seeking(id, now)
    ensures var w' := Stirred(Stirred(w, a, AnswerOf(lookup)), b, AnswerOf(lookup));
            && w'.posts == w.posts && w'.store == w.store
            && PointOf(w', 0) ==
               (if KnowsOrder(w.store, id) && lookup.Located?
                then Recording(UpdateReported(id, w.store.executions[id].orderId.value, lookup.report, now),
                               EventReported(lookup.report))
                else Idle)
  {
    hide EventReported, UpdateReported;
    StirredPoint(w, a, AnswerOf(lookup));
    StirredPoint(Stirred(w, a, AnswerOf(lookup)), b, AnswerOf(lookup));
  }

  // ---------- completed executions leave nothing unrecorded ----------

  /** Every order sent is recorded, or about to be by the one running process. */
  ghost predicate RecordedSoon(w: World) {
    forall p | p in w.posts ::
      OnRecord(w, p.id) || (PointOf(w, 0).Recording? && PointOf(w, 0).update.id == p.id)
  }

  ghost predicate AllRecorded(w: World) {
    forall p | p in w.posts :: OnRecord(w, p.id)
  }

  /** How many steps a process has left at most. */
  function StepsLeft(point: Point): nat {
    match point
    case Called(_) => 6
    case Seeking(_, _) => 4
    case Weighing(_, _) => 5
    case Claiming(_, _) => 4
    case Sending(_, _) => 3
    case Asking(_, _, _) => 3
    case Recording(_, _) => 2
    case Logging(_, _, _) => 1
    case Retiring(_) => 1
    case Idle => 0
  }

  lemma AdvanceRecords(w: World, answer: Answer)
    requires Safe(w) && RecordedSoon(w)
    ensures RecordedSoon(Step(w, Advance(0, answer)))
    ensures StepsLeft(PointOf(w, 0)) > 0 ==>
              StepsLeft(PointOf(Step(w, Advance(0, answer)), 0)) < StepsLeft(PointOf(w, 0))
  {
    hide PassesRisk, EventAfter, EventReported, StoreOk, PostsOk, OneSender, FreshInputs, Replay, UpdateReported,
         Endorsed, Holds, NotPosted;
    var w' := Step(w, Advance(0, answer));
    match PointOf(w, 0) {
      case Recording(u, _) =>
        assert PointOk(w, w.points[0]);
      case _ =>
    }
    hide Safe;
    forall p | p in w'.posts
      ensures OnRecord(w', p.id) || (PointOf(w', 0).Recording? && PointOf(w', 0).update.id == p.id)
    {
      if p in w.posts {
        assert OnRecord(w, p.id) || (PointOf(w, 0).Recording? && PointOf(w, 0).update.id == p.id);
      }
    }
  }

  lemma StirredRecords(w: World, tick: int, answer: Answer)
    requires Safe(w) && RecordedSoon(w)
    ensures RecordedSoon(Stirred(w, tick, answer))
    ensures StepsLeft(PointOf(w, 0)) > 0 ==> StepsLeft(PointOf(Stirred(w, tick, answer), 0)) < StepsLeft(PointOf(w, 0))
  {
    StepSafe(w, Tick(tick));
    var w1 := Step(w, Tick(tick));
    assert w1.posts == w.posts && w1.store == w.store && PointOf(w1, 0) == PointOf(w, 0);
    hide Step, Safe;
    AdvanceRecords(w1, answer);
  }

  lemma {:induction false} AdvancesRecord(w: World, clock: int, answer: Answer, ticks: seq<int>)
    requires Serial(w, clock) && RecordedSoon(w)
    ensures RecordedSoon(Advances(w, answer, ticks))
    ensures StepsLeft(PointOf(w, 0)) <= |ticks| ==> PointOf(Advances(w, answer, ticks), 0) == Idle
    decreases |ticks|
  {
    SerialSafe(w, clock);
    hide Serial, Stirred, Safe;
    if ticks != [] {
      StirredRecords(w, ticks[0], answer);
      StirredSerial(w, clock, ticks[0], answer);
      if StepsLeft(PointOf(w, 0)) == 0 {
        IdleStays(w, answer, ticks);
      } else {
        AdvancesRecord(Stirred(w, ticks[0], answer), clock, answer, ticks[1..]);
      }
    }
  }

  lemma SerialSafe(w: World, clock: int)
    requires Serial(w, clock)
    ensures Safe(w)
  {
  }

  /** The steps of `reconcile` send nothing. */
  predicate Reconciling(point: Point) {
    point.Idle? || point.Seeking? || point.Asking? || point.Recording? || point.Logging?
  }

  lemma ReconcileStep(w: World, tick: int, answer: Answer)
    requires Safe(w) && AllRecorded(w) && Reconciling(PointOf(w, 0))
    ensures AllRecorded(Stirred(w, tick, answer)) && Reconciling(PointOf(Stirred(w, tick, answer), 0))
  {
    hide PassesRisk, EventAfter, EventReported, StoreOk, PostsOk, OneSender;
    StirredPoint(w, tick, answer);
    if PointOf(w, 0).Recording? {
      assert PointOk(w, w.points[0]);
    }
  }

  lemma {:induction false} ReconcileSteps(w: World, clock: int, answer: Answer, ticks: seq<int>)
    requires Serial(w, clock) && AllRecorded(w) && Reconciling(PointOf(w, 0))
    ensures AllRecorded(Advances(w, answer, ticks))
    decreases |ticks|
  {
    SerialSafe(w, clock);
    hide Serial, Stirred, AllRecorded, Safe, Reconciling;
    if ticks != [] {
      ReconcileStep(w, ticks[0], answer);
      StirredSerial(w, clock, ticks[0], answer);
      ReconcileSteps(Stirred(w, ticks[0], answer), clock, answer, ticks[1..]);
    }
  }

  predicate Completed(turn: Turn) { turn.Execute? ==> |turn.ticks| >= WHOLE }

  lemma CallLeaves(w: World, act: Act)
    requires PointOf(w, 0) == Idle && (act.Begin? || act.Ask?) && act.process == 0
    ensures var w' := Step(w, act);
            && w'.posts == w.posts && w'.store == w.store && StepsLeft(PointOf(w', 0)) <= WHOLE
            && (act.Ask? ==> Reconciling(PointOf(w', 0)))
  {
  }

  lemma OutsideLeaves(w: World, act: Act)
    requires act.Propose? || act.Review?
    ensures Step(w, act).posts == w.posts && Step(w, act).store.executions == w.store.executions
  {
  }

  lemma CompletedTurn(w: World, turn: Turn)
    requires Resting(w) && Punctual(w, turn) && Completed(turn) && AllRecorded(w)
    ensures AllRecorded(Turned(w, turn))
  {
    hide Serial, Sequenced;
    match turn {
      case Wait(until) =>
      case Submit(ticket) => OutsideLeaves(w, Propose(ticket));
      case Judge(id, approve, approver, expected, reason, now) =>
        OutsideLeaves(w, Review(id, approve, approver, expected, reason, now));
      case Execute(call, answer, ticks) =>
        CallSerial(w, Begin(0, call), w.clock);
        CallLeaves(w, Begin(0, call));
        var w1 := Step(w, Begin(0, call));
        assert RecordedSoon(w1);
        hide Step;
        AdvancesRecord(w1, w.clock, answer, ticks);
        CrashLeaves(Advances(w1, answer, ticks));
      case Reconcile(id, now, answer, ticks) =>
        CallSerial(w, Ask(0, id, now), w.clock);
        CallLeaves(w, Ask(0, id, now));
        var w1 := Step(w, Ask(0, id, now));
        hide Step;
        ReconcileSteps(w1, w.clock, answer, ticks);
        CrashLeaves(Advances(w1, answer, ticks));
    }
  }

  lemma CrashLeaves(w: World)
    ensures Step(w, Crash(0)).posts == w.posts && Step(w, Crash(0)).store == w.store && Step(w, Crash(0)).sent == w.sent
    ensures PointOf(Step(w, Crash(0)), 0) == Idle && Step(w, Crash(0)).clock == w.clock
  {
  }

  lemma {:induction false} CompletedTurns(w: World, turns: seq<Turn>)
    requires Resting(w) && PunctualAll(w, turns) && AllRecorded(w)
    requires forall turn | turn in turns :: Completed(turn)
    ensures AllRecorded(Turns(w, turns))
    decreases |turns|
  {
    hide Resting, Turned, AllRecorded, Punctual;
    if turns != [] {
      CompletedTurn(w, turns[0]);
      TurnResting(w, turns[0]);
      CompletedTurns(Turned(w, turns[0]), turns[1..]);
    }
  }

  /** THREE ORDERS A WEEK, AND A STRADDLING ONE: in any serial run of completed executions under a clock that
      never runs back, the orders sent in a week and not rejected by the broker are at most three of calls
      that read the clock in that week, and at most one of a call that read it before that Monday. */
  lemma AtMostThreeAWeek(turns: seq<Turn>, monday: int)
    requires PunctualAll(START, turns) && forall turn | turn in turns :: Completed(turn)
    ensures var w := Turns(START, turns);
            && |SentIds(w, monday)| <= MAX_TRADES_PER_WEEK + |StraddlingIds(w, monday)|
            && |StraddlingIds(w, monday)| <= 1
  {
    StartResting();
    CompletedTurns(START, turns);
    WeeklyLimitWithCrashes(turns, monday);
    var w := Turns(START, turns);
    forall p | p in w.posts
      ensures OnRecord(w, p.id)
    {
    }
    assert LostIds(w, monday) == {};
  }

  lemma CrashAfterSend(w: World, call: Call, row: Proposal, answer: Answer, ticks: seq<int>)
    requires PointOf(w, 0) == Idle && Screen(w.store, call) == Proceeds(row) && |ticks| == 4
    requires PassesRisk(w.store, call, row.ticket) && call.id !in w.store.executions
    ensures var w' := Turned(w, Execute(call, answer, ticks));
            && w'.store == ClaimInserted(w.store, call.id, RequestOf(row), call.now)
            && |w'.posts| == |w.posts| + 1
  {
    hide EventAfter, UpdateAfter, PassesRisk, Screen, ClaimInserted, Stirred, Advances, ClockAt;
    var w1 := Step(w, Begin(0, call));
    assert w1 == At(w, 0, Called(call));
    assert ticks == [ticks[0], ticks[1]] + [ticks[2], ticks[3]];
    AdvancesAppend(w1, answer, [ticks[0], ticks[1]], [ticks[2], ticks[3]]);
    AdvancesTwo(w1, answer, ticks[0], ticks[1]);
    Screens(w1, call, answer, ticks[0], ticks[1]);
    var w2 := Advances(w1, answer, [ticks[0], ticks[1]]);
    AdvancesTwo(w2, answer, ticks[2], ticks[3]);
    ClaimAndSend(w2, call, row, answer, ticks[2], ticks[3]);
    CrashLeaves(Advances(w1, answer, ticks));
  }

  /** Why completion matters: an execution that crashes between sending and recording leaves the
      weekly count as it was, although its order may be live. */
  lemma CrashedOrderIsNotCounted(w: World, call: Call, answer: Answer, ticks: seq<int>, since: int)
    requires PointOf(w, 0) == Idle && Executed(w.store, call, answer).1.Some? && |ticks| == 4
    requires forall id | id in w.store.claims :: id in w.store.executions
    ensures var w' := Turned(w, Execute(call, answer, ticks));
            && |w'.posts| == |w.posts| + 1
            && SubmittedTimes(w'.store, w'.store.claims, since) == SubmittedTimes(w.store, w.store.claims, since)
  {
    hide Updated, Logged, EventAfter, UpdateAfter, PassesRisk, FreshInputs, Retired, Turned;
    var row := Screen(w.store, call).row;
    CrashAfterSend(w, call, row, answer, ticks);
    hide Executed, Screen;
    var s := ClaimInserted(w.store, call.id, RequestOf(row), call.now);
    TimesUnchanged(w.store, s, w.store.claims, since);
    assert s.claims[..|s.claims| - 1] == w.store.claims;
  }

  lemma {:induction false} TimesUnchanged(s: Store, s': Store, claims: seq<string>, since: int)
    requires forall id | id in claims ::
               id in s.executions && id in s'.executions && s'.executions[id] == s.executions[id]
    ensures SubmittedTimes(s', claims, since) == SubmittedTimes(s, claims, since)
  {
    if claims != [] {
      TimesUnchanged(s, s', claims[..|claims| - 1], since);
    }
  }

  // ---------- submission times ----------

  ghost predicate SubmittedBy(s: Store, clock: int) {
    forall id | id in s.executions && s.executions[id].submittedAt.Some? :: s.executions[id].submittedAt.value <= clock
  }

  lemma RecordForward(s: Store, u: Update, clock: int)
    requires u.at == clock && SubmittedBy(s, clock)
    ensures Forward(s, Updated(s, u)) && SubmittedBy(Updated(s, u), clock)
  {
  }

  lemma AdvanceForward(w: World, clock: int, answer: Answer)
    requires PointOf(w, 0).Recording? ==> PointOf(w, 0).update.at == clock
    requires SubmittedBy(w.store, clock)
    ensures var w' := Step(w, Advance(0, answer)); Forward(w.store, w'.store) && SubmittedBy(w'.store, clock)
  {
    hide PassesRisk, EventAfter, EventReported, UpdateReported, UpdateAfter, Updated;
    match PointOf(w, 0) {
      case Recording(u, _) =>
        hide Forward, SubmittedBy;
        RecordForward(w.store, u, clock);
      case _ =>
    }
  }

  lemma SerialReads(w: World, clock: int)
    requires Serial(w, clock)
    ensures PointOf(w, 0).Recording? ==> PointOf(w, 0).update.at == clock
  {
    hide Safe, Tracked, WeeksOk;
  }

  lemma ForwardItself(s: Store)
    ensures Forward(s, s)
  {
  }

  lemma ForwardTrans(a: Store, b: Store, c: Store)
    requires Forward(a, b) && Forward(b, c)
    ensures Forward(a, c)
  {
  }

  lemma StirredForward(w: World, clock: int, tick: int, answer: Answer)
    requires Serial(w, clock) && SubmittedBy(w.store, clock)
    ensures var w' := Stirred(w, tick, answer); Forward(w.store, w'.store) && SubmittedBy(w'.store, clock)
  {
    SerialReads(w, clock);
    var w1 := Step(w, Tick(tick));
    assert w1.store == w.store && PointOf(w1, 0) == PointOf(w, 0);
    hide Serial, Step, SubmittedBy, Forward;
    AdvanceForward(w1, clock, answer);
  }

  lemma {:induction false} AdvancesForward(w: World, clock: int, answer: Answer, ticks: seq<int>)
    requires Serial(w, clock) && SubmittedBy(w.store, clock)
    ensures var w' := Advances(w, answer, ticks); Forward(w.store, w'.store) && SubmittedBy(w'.store, clock)
    decreases |ticks|
  {
    ForwardItself(w.store);
    hide Serial, Stirred, SubmittedBy, Forward;
    if ticks != [] {
      var w' := Stirred(w, ticks[0], answer);
      StirredSerial(w, clock, ticks[0], answer);
      StirredForward(w, clock, ticks[0], answer);
      AdvancesForward(w', clock, answer, ticks[1..]);
      ForwardTrans(w.store, w'.store, Advances(w, answer, ticks).store);
    }
  }

  lemma TurnForward(w: World, turn: Turn)
    requires Resting(w) && Punctual(w, turn) && SubmittedBy(w.store, w.clock)
    ensures Forward(w.store, Turned(w, turn).store) && SubmittedBy(Turned(w, turn).store, Turned(w, turn).clock)
  {
    hide Serial, Sequenced;
    match turn {
      case Wait(until) =>
      case Submit(ticket) => OutsideLeaves(w, Propose(ticket));
      case Judge(id, approve, approver, expected, reason, now) =>
        OutsideLeaves(w, Review(id, approve, approver, expected, reason, now));
      case Execute(call, answer, ticks) => CommandForward(w, Begin(0, call), answer, ticks);
      case Reconcile(id, now, answer, ticks) => CommandForward(w, Ask(0, id, now), answer, ticks);
    }
  }

  lemma CommandForward(w: World, act: Act, answer: Answer, ticks: seq<int>)
    requires Resting(w) && (act.Begin? || act.Ask?) && act.process == 0 && SubmittedBy(w.store, w.clock)
    requires if act.Begin? then act.call.now == w.clock else act.now == w.clock
    ensures var w' := Step(Advances(Step(w, act), answer, ticks), Crash(0));
            Forward(w.store, w'.store) && SubmittedBy(w'.store, w'.clock)
  {
    CallSerial(w, act, w.clock);
    CallLeaves(w, act);
    CallSequenced(w, act);
    var w1 := Step(w, act);
    hide Step, Serial, Sequenced, Forward;
    AdvancesForward(w1, w.clock, answer, ticks);
    AdvancesSequenced(w1, answer, ticks);
    CrashLeaves(Advances(w1, answer, ticks));
  }

  lemma {:induction false} TurnsForward(w: World, turns: seq<Turn>, k: nat)
    requires k <= |turns| && Resting(w) && PunctualAll(w, turns) && SubmittedBy(w.store, w.clock)
    ensures Forward(w.store, Turns(w, turns).store) && Forward(Turns(w, turns[..k]).store, Turns(w, turns).store)
    decreases |turns|
  {
    ForwardItself(w.store);
    hide Resting, Turned, SubmittedBy, Forward, Punctual;
    if turns != [] {
      TurnResting(w, turns[0]);
      TurnForward(w, turns[0]);
      var w' := Turned(w, turns[0]);
      TurnsForward(w', turns[1..], if k == 0 then 0 else k - 1);
      ForwardTrans(w.store, w'.store, Turns(w, turns).store);
      assert k > 0 ==> turns[..k][0] == turns[0] && turns[..k][1..] == turns[1..][..k - 1];
    }
  }

  /** IN SERIAL RUNS, with crashes, no submission time ever moves back. */
  lemma SerialNeverBack(turns: seq<Turn>, k: nat)
    requires k <= |turns| && PunctualAll(START, turns)
    ensures Forward(Turns(START, turns[..k]).store, Turns(START, turns).store)
  {
    StartResting();
    TurnsForward(START, turns, k);
  }
}
