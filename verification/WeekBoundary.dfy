/** What the weekly limit does not cover: a call that reads the clock on a Sunday and sends on the Monday
    is recorded under the old week, so three more orders pass the check in the new one
    (src/japan_agent/execute/service.py:151-182, src/japan_agent/cli.py:275). */
module WeekBoundary {
  import opened Prelude
  import opened Time
  import opened RiskEngine
  import opened Storage
  import opened Execution
  import opened Protocol
  import opened WeeklyLimit
  import opened SerialRuns
  import opened Races

  // ---------- calls that leave time to send before the Monday ----------

  /** The call reads the clock at least this long before the next Monday. */
  predicate Early(now: int, margin: int) { now + margin <= WeekStart(now) + WEEK }

  predicate EarlyTurn(turn: Turn, margin: int) { turn.Execute? ==> Early(turn.call.now, margin) }

  /** The turns are completed, and their calls early enough. */
  ghost predicate InOneGo(turns: seq<Turn>, margin: int) {
    forall turn | turn in turns :: Completed(turn) && EarlyTurn(turn, margin)
  }

  /** Every order sent, and the one about to be, is of such a call. */
  ghost predicate AllEarly(w: World, margin: int) {
    && (forall p | p in w.posts :: Early(p.readAt, margin))
    && (BeforeSending(PointOf(w, 0)) ==> Early(PointOf(w, 0).call.now, margin))
  }

  lemma AdvanceEarly(w: World, answer: Answer, margin: int)
    requires AllEarly(w, margin)
    ensures AllEarly(Step(w, Advance(0, answer)), margin)
  {
    hide Early, PassesRisk, UpdateAfter, EventAfter, Retired, Updated, Logged, ClaimInserted, UpdateReported,
         EventReported, Screened;
    if PointOf(w, 0).Called? {
      ScreenedKeepsCall(w.store, PointOf(w, 0).call);
    }
  }

  lemma StirredEarly(w: World, tick: int, answer: Answer, margin: int)
    requires AllEarly(w, margin)
    ensures AllEarly(Stirred(w, tick, answer), margin)
  {
    var w1 := Step(w, Tick(tick));
    assert w1.posts == w.posts && PointOf(w1, 0) == PointOf(w, 0);
    hide Step, Early;
    AdvanceEarly(w1, answer, margin);
  }

  lemma {:induction false} AdvancesEarly(w: World, answer: Answer, ticks: seq<int>, margin: int)
    requires AllEarly(w, margin)
    ensures AllEarly(Advances(w, answer, ticks), margin)
    decreases |ticks|
  {
    hide AllEarly, Stirred;
    if ticks != [] {
      StirredEarly(w, ticks[0], answer, margin);
      AdvancesEarly(Stirred(w, ticks[0], answer), answer, ticks[1..], margin);
    }
  }

  lemma CallEarly(w: World, act: Act, margin: int)
    requires AllEarly(w, margin) && PointOf(w, 0) == Idle && (act.Begin? || act.Ask?) && act.process == 0
    requires act.Begin? ==> Early(act.call.now, margin)
    ensures AllEarly(Step(w, act), margin)
  {
    hide Early;
  }

  lemma OutsideEarly(w: World, act: Act, margin: int)
    requires AllEarly(w, margin) && (act.Propose? || act.Review? || act == Crash(0) || act.Tick?)
    ensures AllEarly(Step(w, act), margin)
  {
    hide Decided, Early;
  }

  lemma TurnEarly(w: World, turn: Turn, margin: int)
    requires AllEarly(w, margin) && PointOf(w, 0) == Idle && EarlyTurn(turn, margin)
    ensures AllEarly(Turned(w, turn), margin)
  {
    hide AllEarly, Step, Early;
    match turn {
      case Wait(until) => OutsideEarly(w, Tick(until), margin);
      case Submit(ticket) => OutsideEarly(w, Propose(ticket), margin);
      case Judge(id, approve, approver, expected, reason, now) =>
        OutsideEarly(w, Review(id, approve, approver, expected, reason, now), margin);
      case Execute(call, answer, ticks) =>
        CallEarly(w, Begin(0, call), margin);
        AdvancesEarly(Step(w, Begin(0, call)), answer, ticks, margin);
        OutsideEarly(Advances(Step(w, Begin(0, call)), answer, ticks), Crash(0), margin);
      case Reconcile(id, now, answer, ticks) =>
        CallEarly(w, Ask(0, id, now), margin);
        AdvancesEarly(Step(w, Ask(0, id, now)), answer, ticks, margin);
        OutsideEarly(Advances(Step(w, Ask(0, id, now)), answer, ticks), Crash(0), margin);
    }
  }

  lemma {:induction false} TurnsEarly(w: World, turns: seq<Turn>, margin: int)
    requires Resting(w) && PunctualAll(w, turns) && AllEarly(w, margin)
    requires forall turn | turn in turns :: EarlyTurn(turn, margin)
    ensures AllEarly(Turns(w, turns), margin)
    decreases |turns|
  {
    hide Turned, AllEarly, Punctual, EarlyTurn, Serial, Sequenced;
    if turns != [] {
      TurnEarly(w, turns[0], margin);
      TurnResting(w, turns[0]);
      TurnsEarly(Turned(w, turns[0]), turns[1..], margin);
    }
  }

  /** Orders that leave sooner than that do not straddle a Monday. */
  lemma EarlyNeverStraddles(w: World, margin: int, delay: int, monday: int)
    requires AllEarly(w, margin) && SentSoon(w, delay) && delay < margin
    ensures StraddlingIds(w, monday) == {}
  {
    forall i: nat | i < |w.posts| && SentIn(w, i, monday)
      ensures w.posts[i].readAt >= monday
    {
      assert w.posts[i] in w.posts;
      WeekHolds(w.posts[i].readAt);
      SameWeek(w.sent[i], w.posts[i].readAt);
      WeekHolds(w.sent[i]);
      assert WeekStart(w.posts[i].readAt) <= w.posts[i].readAt;
    }
  }

  /** AT MOST THREE where nobody straddles: calls that leave more time before the Monday than an order
      takes to go out never send more than three in one week. */
  lemma ThreeWhereNoneStraddles(turns: seq<Turn>, margin: int, delay: int, monday: int)
    requires PunctualAll(START, turns) && delay < margin
    requires InOneGo(turns, margin) && SentSoon(Turns(START, turns), delay)
    ensures |SentIds(Turns(START, turns), monday)| <= MAX_TRADES_PER_WEEK
  {
    hide SentSoon, EarlyTurn, Resting;
    StartResting();
    assert AllEarly(START, margin);
    TurnsEarly(START, turns, margin);
    EarlyNeverStraddles(Turns(START, turns), margin, delay, monday);
    AtMostThreeAWeek(turns, monday);
  }

  // ---------- four orders in one week ----------

  /** Propose, approve and execute one proposal, all called at one time. */
  function Trading(id: string, now: int, ticks: seq<int>): seq<Turn> {
    [Submit(Order(id, now, now + HOUR)),
     Judge(id, true, "owner", Fingerprint(Order(id, now, now + HOUR)), None, now),
     Execute(CallFor(id, now), Accepted(Placed(id)), ticks)]
  }

  /** How many submissions of its week a call that reads the clock then finds. */
  function OnFile(s: Store, now: int): nat { ThisWeek(SubmittedTimes(s, s.claims, now - WEEK), now) }

  /** An execute of a new approved proposal claims, sends and records. */
  lemma ExecutesNew(s: Store, id: string, now: int)
    requires id in s.proposals && s.proposals[id] == ApprovedRow(id, now, now + HOUR) && id !in s.executions
    requires OnFile(s, now) < MAX_TRADES_PER_WEEK
    ensures var (s', sent, _) := Executed(s, CallFor(id, now), Accepted(Placed(id)));
            && sent == Some(PostOf(CallFor(id, now), ApprovedRow(id, now, now + HOUR), Accepted(Placed(id))))
            && s'.claims == s.claims + [id] && s'.proposals.Keys == s.proposals.Keys
            && id in s'.executions && s'.executions[id].submittedAt == Some(now)
            && s'.executions == s.executions[id := s'.executions[id]]
  {
    hide Screen, PassesRisk, ThisWeek, SubmittedTimes;
    ScreenPasses(s, id, now, now + HOUR, now);
    Passes(s, id, now, now + HOUR, now);
    Tickets(id, now, now + HOUR);
    assert Confirms(Placed(id), Order(id, now, now + HOUR));
  }

  lemma ThreeTurns(w: World, a: Turn, b: Turn, c: Turn)
    ensures Turns(w, [a, b, c]) == Turned(Turned(Turned(w, a), b), c)
    ensures PunctualAll(w, [a, b, c]) <==>
            Punctual(w, a) && Punctual(Turned(w, a), b) && Punctual(Turned(Turned(w, a), b), c)
  {
    hide Turned, Punctual;
    assert [a, b, c][1..] == [b, c] && [b, c][1..] == [c] && [c][1..] == [];
    var w2 := Turned(Turned(w, a), b);
    assert Turns(w2, [c]) == Turns(Turned(w2, c), []) && PunctualAll(Turned(w2, c), []);
    assert PunctualAll(w2, [c]) <==> Punctual(w2, c);
  }

  lemma {:induction false} AdvancesClock(w: World, answer: Answer, ticks: seq<int>)
    ensures Advances(w, answer, ticks).clock == ClockAt(w.clock, ticks)
    decreases |ticks|
  {
    hide Stirred, Advanced;
    if ticks != [] {
      StirredPoint(w, ticks[0], answer);
      AdvancesClock(Stirred(w, ticks[0], answer), answer, ticks[1..]);
    }
  }

  /** Where an uninterrupted execute leaves the clock and the process. */
  lemma ExecuteRests(w: World, call: Call, answer: Answer, ticks: seq<int>)
    requires PointOf(w, 0) == Idle
    ensures var w' := Turned(w, Execute(call, answer, ticks));
            w'.clock == ClockAt(w.clock, ticks) && PointOf(w', 0) == Idle
  {
    hide Advances, ClockAt;
    AdvancesClock(Step(w, Begin(0, call)), answer, ticks);
  }

  /** Three turns of the program sell one more. */
  lemma TradingSells(w: World, id: string, ticks: seq<int>)
    requires PointOf(w, 0) == Idle && id !in w.store.proposals && id !in w.store.executions && |ticks| == WHOLE
    requires OnFile(w.store, w.clock) < MAX_TRADES_PER_WEEK && forall x | x in w.store.claims :: x in w.store.executions
    ensures var turns := Trading(id, w.clock, ticks); var w' := Turns(w, turns); var s, s' := w.store, w'.store;
            && PunctualAll(w, turns) && PointOf(w', 0) == Idle && w'.clock == ClockAt(w.clock, ticks)
            && w'.posts == w.posts + [PostOf(CallFor(id, w.clock), ApprovedRow(id, w.clock, w.clock + HOUR),
                                             Accepted(Placed(id)))]
            && w'.sent == w.sent + [ClockAt(w.clock, ticks[..4])]
            && s'.claims == s.claims + [id] && s'.proposals.Keys == s.proposals.Keys + {id}
            && id in s'.executions && s'.executions[id].submittedAt == Some(w.clock)
            && s'.executions == s.executions[id := s'.executions[id]]
  {
    hide ApprovedRow, CallFor, Order, Placed, ThisWeek, SubmittedTimes, Executed, PostOf, Step, Advances, ClockAt,
         Turns, PunctualAll;
    var at := w.clock;
    var submit, judge := Submit(Order(id, at, at + HOUR)),
                         Judge(id, true, "owner", Fingerprint(Order(id, at, at + HOUR)), None, at);
    var execute := Execute(CallFor(id, at), Accepted(Placed(id)), ticks);
    ThreeTurns(w, submit, judge, execute);
    Approves(w, id, at, at + HOUR);
    var w2 := Turned(Turned(w, submit), judge);
    assert w2.store.executions == w.store.executions && w2.store.claims == w.store.claims && PointOf(w2, 0) == Idle;
    assert CallFor(id, at).now == at by { CalledAt(id, at); }
    TimesUnchanged(w.store, w2.store, w.store.claims, at - WEEK);
    ExecutesNew(w2.store, id, at);
    ExecuteIsItsSteps(w2, CallFor(id, at), Accepted(Placed(id)), ticks);
    ExecuteRests(w2, CallFor(id, at), Accepted(Placed(id)), ticks);
  }

  lemma CalledAt(id: string, now: int)
    ensures CallFor(id, now).now == now && CallFor(id, now).id == id
  {
  }

  /** The names from `k` on are new, and those before have sent their orders at this instant, after readings
      no earlier than `since`. */
  ghost predicate Sold(w: World, k: nat, since: int, at: int) {
    && PointOf(w, 0) == Idle && |w.posts| == |w.sent| == k
    && (forall j | 0 <= j < k ::
          w.posts[j].id == Name(j) && !w.posts[j].answer.Refused? && w.posts[j].readAt >= since && w.sent[j] == at)
    && (forall id | id in w.store.claims :: id in w.store.executions)
    && (forall j | j >= k :: Name(j) !in w.store.proposals && Name(j) !in w.store.executions)
  }

  lemma SoldOneMore(w: World, w': World, k: nat, since: int, at: int, now: int)
    requires Sold(w, k, since, at) && since <= now && PointOf(w', 0) == Idle && w'.sent == w.sent + [at]
    requires w'.posts == w.posts
               + [PostOf(CallFor(Name(k), now), ApprovedRow(Name(k), now, now + HOUR), Accepted(Placed(Name(k))))]
    requires w'.store.claims == w.store.claims + [Name(k)]
             && w'.store.proposals.Keys == w.store.proposals.Keys + {Name(k)}
    requires w'.store.executions.Keys == w.store.executions.Keys + {Name(k)}
    ensures Sold(w', k + 1, since, at)
  {
    assert w'.posts[k].id == Name(k) && !w'.posts[k].answer.Refused? && w'.posts[k].readAt == now;
    hide ApprovedRow, CallFor, Placed, PostOf;
    forall j | j >= k + 1
      ensures Name(j) !in w'.store.proposals && Name(j) !in w'.store.executions
    {
      assert |Name(j)| == j && |Name(k)| == k;
      assert Name(j) !in w.store.proposals && Name(j) !in w.store.executions;
      assert Name(j) !in w'.store.proposals.Keys && Name(j) !in w'.store.executions.Keys;
    }
  }

  /** The order is on file for its call's reading. */
  lemma FiledOneMore(s: Store, s': Store, id: string, now: int, monday: int)
    requires s'.claims == s.claims + [id] && id !in s.executions && forall x | x in s.claims :: x in s.executions
    requires id in s'.executions && s'.executions[id].submittedAt == Some(now)
    requires s'.executions == s.executions[id := s'.executions[id]]
    ensures OnFile(s', monday) == OnFile(s, monday) + if now >= monday - WEEK && now >= WeekStart(monday) then 1 else 0
  {
    var since := monday - WEEK;
    var tail := if now >= since then [now] else [];
    TimesUnchanged(s, s', s.claims, since);
    assert s'.claims[..|s'.claims| - 1] == s.claims;
    assert SubmittedTimes(s', s'.claims, since) == SubmittedTimes(s, s.claims, since) + tail;
    hide WeekStart;
    ThisWeekAppend(SubmittedTimes(s, s.claims, since), tail, monday);
    assert tail != [] ==> tail[1..] == [];
  }

  /** One more order, sent at `at` by a call of the present moment. */
  lemma Sells(w: World, k: nat, ticks: seq<int>, since: int, at: int)
    requires Sold(w, k, since, at) && since <= w.clock && |ticks| == WHOLE && ClockAt(w.clock, ticks[..4]) == at
    requires OnFile(w.store, w.clock) < MAX_TRADES_PER_WEEK
    ensures var turns := Trading(Name(k), w.clock, ticks); var w' := Turns(w, turns);
            && PunctualAll(w, turns) && Sold(w', k + 1, since, at) && w'.clock == ClockAt(w.clock, ticks)
            && OnFile(w'.store, at) ==
               OnFile(w.store, at) + if w.clock >= at - WEEK && w.clock >= WeekStart(at) then 1 else 0
  {
    assert Name(k) !in w.store.proposals && Name(k) !in w.store.executions;
    hide Name, Turns, PunctualAll, ClockAt, OnFile, WeekStart, Trading, PostOf, ApprovedRow, CallFor, Placed;
    TradingSells(w, Name(k), ticks);
    var w' := Turns(w, Trading(Name(k), w.clock, ticks));
    SoldOneMore(w, w', k, since, at, w.clock);
    FiledOneMore(w.store, w'.store, Name(k), w.clock, at);
  }

  lemma {:induction false} TurnsAppend(w: World, a: seq<Turn>, b: seq<Turn>)
    ensures Turns(w, a + b) == Turns(Turns(w, a), b)
    ensures PunctualAll(w, a + b) <==> PunctualAll(w, a) && PunctualAll(Turns(w, a), b)
    decreases |a|
  {
    hide Turned, Punctual;
    if a == [] {
      assert a + b == b;
    } else {
      assert (a + b)[0] == a[0] && (a + b)[1..] == a[1..] + b;
      TurnsAppend(Turned(w, a[0]), a[1..], b);
    }
  }

  lemma TradingInOneGo(id: string, now: int, ticks: seq<int>, margin: int)
    requires |ticks| == WHOLE && Early(now, margin)
    ensures InOneGo(Trading(id, now, ticks), margin)
  {
    hide Early, Placed, Order;
  }

  /** Called and sent at one instant. */
  function AtOnce(at: int): seq<int> { seq(WHOLE, _ => at) }

  lemma {:induction false} ClockStays(at: int, n: nat)
    ensures ClockAt(at, seq(n, _ => at)) == at
  {
    if n > 0 {
      ClockStays(at, n - 1);
      assert seq(n, _ => at)[1..] == seq(n - 1, _ => at);
    }
  }

  lemma AtOnceStays(at: int)
    ensures ClockAt(at, AtOnce(at)) == at && ClockAt(at, AtOnce(at)[..4]) == at
  {
    ClockStays(at, WHOLE);
    ClockStays(at, 4);
    assert AtOnce(at)[..4] == seq(4, _ => at);
  }

  /** On the Monday, one order after another until three of the week are on file. */
  lemma {:induction false} SellsTheRest(w: World, k: nat, since: int, monday: int, margin: int)
    returns (turns: seq<Turn>)
    requires 1 <= k <= MAX_TRADES_PER_WEEK + 1 && Sold(w, k, since, monday) && w.clock == monday && since <= monday
    requires WeekStart(monday) == monday && margin <= WEEK && OnFile(w.store, monday) == k - 1
    ensures PunctualAll(w, turns) && InOneGo(turns, margin)
    ensures Sold(Turns(w, turns), MAX_TRADES_PER_WEEK + 1, since, monday)
    decreases MAX_TRADES_PER_WEEK + 1 - k
  {
    if k == MAX_TRADES_PER_WEEK + 1 {
      return [];
    }
    AtOnceStays(monday);
    assert Early(monday, margin);
    assert |AtOnce(monday)| == WHOLE;
    hide Sold, Turns, PunctualAll, OnFile, WeekStart, Trading, Early, AtOnce, ClockAt;
    var one := Trading(Name(k), monday, AtOnce(monday));
    Sells(w, k, AtOnce(monday), since, monday);
    TradingInOneGo(Name(k), monday, AtOnce(monday), margin);
    var rest := SellsTheRest(Turns(w, one), k + 1, since, monday, margin);
    TurnsAppend(w, one, rest);
    turns := one + rest;
  }

  /** A Monday well after the start. */
  const MONDAY := WeekStart(0) + 2 * WEEK

  lemma MondayHolds()
    ensures WeekStart(MONDAY) == MONDAY > WEEK && WeekStart(MONDAY - WEEK) == MONDAY - WEEK
  {
    WeekHolds(0);
    var days := DayOf(0) - Weekday(0) + 14;
    assert MONDAY == days * DAY && DayOf(MONDAY) == days && (days + 3) % 7 == 0;
    assert DayOf(MONDAY - WEEK) == days - 7;
  }

  /** Called the margin before the Monday, and sent as it starts. */
  function Straddled(margin: int): seq<int> {
    [MONDAY - margin, MONDAY - margin, MONDAY - margin, MONDAY, MONDAY, MONDAY]
  }

  lemma StraddledStays(margin: int)
    requires margin > 0
    ensures ClockAt(MONDAY - margin, Straddled(margin)) == MONDAY
    ensures ClockAt(MONDAY - margin, Straddled(margin)[..4]) == MONDAY
  {
    hide MONDAY, ClockAt;
    var before := MONDAY - margin;
    assert Straddled(margin)[..4] == [before, before] + [before, MONDAY];
    ClockAppend(before, [before, before], [before, MONDAY]);
    ClockTwo(before, before, before);
    ClockTwo(before, before, MONDAY);
    assert Straddled(margin) == Straddled(margin)[..4] + [MONDAY, MONDAY];
    ClockAppend(before, Straddled(margin)[..4], [MONDAY, MONDAY]);
    ClockTwo(MONDAY, MONDAY, MONDAY);
  }

  /** Wait until the margin before the Monday, and sell one that leaves on it. */
  lemma SellsAcross(margin: int) returns (turns: seq<Turn>)
    requires 0 < margin <= WEEK
    ensures var w := Turns(START, turns);
            && PunctualAll(START, turns) && InOneGo(turns, margin) && Sold(w, 1, MONDAY - margin, MONDAY)
            && w.clock == MONDAY && OnFile(w.store, MONDAY) == 0
  {
    var at := MONDAY - margin;
    Waits(at, margin);
    var w := Turns(START, [Wait(at)]);
    StraddledStays(margin);
    assert |Straddled(margin)| == WHOLE;
    hide *;
    Sells(w, 0, Straddled(margin), at, MONDAY);
    TradingInOneGo(Name(0), at, Straddled(margin), margin);
    TurnsAppend(START, [Wait(at)], Trading(Name(0), at, Straddled(margin)));
    turns := [Wait(at)] + Trading(Name(0), at, Straddled(margin));
    WaitInOneGo(at, Trading(Name(0), at, Straddled(margin)), margin);
  }

  lemma WaitInOneGo(until: int, turns: seq<Turn>, margin: int)
    requires InOneGo(turns, margin)
    ensures InOneGo([Wait(until)] + turns, margin)
  {
  }

  lemma Waits(at: int, margin: int)
    requires 0 < margin <= WEEK && at == MONDAY - margin
    ensures var w := Turns(START, [Wait(at)]);
            && PunctualAll(START, [Wait(at)]) && Sold(w, 0, at, MONDAY) && w.clock == at && at < WeekStart(MONDAY)
            && OnFile(w.store, at) == OnFile(w.store, MONDAY) == 0 && Early(at, margin)
  {
    MondayHolds();
    WeekHolds(at);
    SameWeek(at, MONDAY - WEEK);
    hide WeekStart, MONDAY;
    var w := Turned(START, Wait(at));
    assert w == START.(clock := at);
    assert [Wait(at)][1..] == [];
    assert Turns(w, []) == w && PunctualAll(w, []);
  }

  /** FOUR ORDERS IN ONE WEEK: however long before a Monday a call reads the clock, there is a run, serial and
      completed, in which it and three calls of the Monday all send their orders in that week. */
  lemma FourInAWeek(margin: int) returns (turns: seq<Turn>)
    requires 0 < margin <= WEEK
    ensures var w := Turns(START, turns);
            && PunctualAll(START, turns) && InOneGo(turns, margin) && SentSoon(w, margin)
            && |SentIds(w, MONDAY)| == MAX_TRADES_PER_WEEK + 1
  {
    MondayHolds();
    var first := SellsAcross(margin);
    hide Turns, PunctualAll, OnFile, WeekStart, MONDAY, Sold;
    var rest := SellsTheRest(Turns(START, first), 1, MONDAY - margin, MONDAY, margin);
    TurnsAppend(START, first, rest);
    turns := first + rest;
    SoldInWeek(Turns(START, turns), MAX_TRADES_PER_WEEK + 1, margin, MONDAY);
  }

  lemma SoldInWeek(w: World, n: nat, margin: int, monday: int)
    requires Sold(w, n, monday - margin, monday) && WeekStart(monday) == monday
    ensures SentSoon(w, margin) && |SentIds(w, monday)| == n
  {
    SentAreNames(w, n, monday);
  }

  /** At most three a week, over all serial and completed runs in which every call leaves this margin
      before the next Monday and every order goes out within this delay of its call's reading. */
  ghost predicate AlwaysThree(margin: int, delay: int) {
    forall turns, monday | PunctualAll(START, turns) && InOneGo(turns, margin)
      && SentSoon(Turns(START, turns), delay) ::
      |SentIds(Turns(START, turns), monday)| <= MAX_TRADES_PER_WEEK
  }

  /** WHEN THE WEEKLY LIMIT HOLDS: at most three orders a week are always sent exactly when every call leaves
      a longer margin before the next Monday than its order takes to go out, so that none straddles one. */
  lemma AtMostThreeIff(margin: int, delay: int)
    requires 0 < margin <= WEEK
    ensures AlwaysThree(margin, delay) <==> delay < margin
  {
    hide SentSoon, SentIds, Turns, PunctualAll, EarlyTurn, MONDAY;
    if delay < margin {
      forall turns, monday | PunctualAll(START, turns) && InOneGo(turns, margin) && SentSoon(Turns(START, turns), delay)
        ensures |SentIds(Turns(START, turns), monday)| <= MAX_TRADES_PER_WEEK
      {
        ThreeWhereNoneStraddles(turns, margin, delay, monday);
      }
    } else {
      var turns := FourInAWeek(margin);
      SoonerIsSoon(Turns(START, turns), margin, delay);
      assert |SentIds(Turns(START, turns), MONDAY)| > MAX_TRADES_PER_WEEK;
    }
  }

  lemma SoonerIsSoon(w: World, margin: int, delay: int)
    requires SentSoon(w, margin) && margin <= delay
    ensures SentSoon(w, delay)
  {
  }
}
