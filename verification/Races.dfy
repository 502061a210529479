/** What the protocol does not prevent: an order may leave after its ticket expired, because the clock is
    read before the claim is taken; concurrent executions may together exceed the weekly limit, because
    each counts the recorded submissions before any of them records its own; and an execute may overtake a
    reconcile that read the clock before it (src/japan_agent/execute/service.py:101-300,
    src/japan_agent/storage.py:485-560). */
module Races {
  import opened Prelude
  import opened Time
  import opened Sums
  import opened RiskEngine
  import opened Storage
  import opened Execution
  import opened Protocol
  import opened Submissions
  import opened Overlaps
  import opened WeeklyLimit

  // ---------- a ticket that passes every check ----------

  const ACCOUNT := Portfolio(1000.0, [])

  /** Each proposal is for an instrument of its own. */
  function Ticker(id: string): string { "T" + id }

  function RuleOf(id: string): InstrumentRule { InstrumentRule(Ticker(id), Core, Etf, 0.4, None) }

  function Order(id: string, at: int, expiresAt: int): TradeTicket {
    TradeTicket(id, at, expiresAt, Ticker(id), Buy, 1.0, 10.0, 10.0, 0.1, 0.9, 0.03, "thesis", [], "invalidation", 0)
  }

  /** The call that executes it, with everything read at the same time. */
  function CallFor(id: string, now: int): Call {
    Call(id, true, PriceSnapshot(Ticker(id), 10.0, 10.0, now), PortfolioSnapshot(ACCOUNT, now, true),
         map[Ticker(id) := RuleOf(id)], now)
  }

  /** The broker takes the order. */
  function Placed(id: string): Response {
    Response(Some("order " + id), None, None, Absent, None, OtherBrokerStatus("NEW"))
  }

  /** Proposed and approved at one time. */
  function ApprovedRow(id: string, at: int, expiresAt: int): Proposal {
    Proposal(Order(id, at, expiresAt), Fingerprint(Order(id, at, expiresAt)), Approved, Some("owner"), Some(at), None)
  }

  lemma OrderIsTen()
    ensures Cents(10.0) == 10.0
  {
    assert (10.0 * 100.0).Floor == 1000;
  }

  /** The call passes the risk check when fewer than three submissions of the week are on record. */
  lemma Passes(s: Store, id: string, at: int, expiresAt: int, now: int)
    requires ThisWeek(SubmittedTimes(s, s.claims, now - WEEK), now) < MAX_TRADES_PER_WEEK
    ensures PassesRisk(s, CallFor(id, now), Order(id, at, expiresAt))
  {
    OrderIsTen();
    assert ACCOUNT.Nav() == 1000.0 by {
      assert SumOf(ACCOUNT.positions, (p: Position) => p.value) == 0.0;
    }
    assert Abs(1.0) == 1.0 && OrderValue(1.0, 10.0) == 10.0;
    hide Cents, OrderValue, Abs, ThisWeek, SubmittedTimes;
    ExecutableIff(Order(id, at, expiresAt), Some(RuleOf(id)), ACCOUNT, 10.0, SubmittedTimes(s, s.claims, now - WEEK),
                  now);
  }

  /** Propose the ticket, approve it, begin to execute it, and pass the screening and the risk check. */
  function Readying(n: nat, id: string, expiresAt: int): seq<Act> {
    [Propose(Order(id, 0, expiresAt)), Review(id, true, "owner", Fingerprint(Order(id, 0, expiresAt)), None, 0)]
    + [Begin(n, CallFor(id, 0)), Advance(n, Uncertain), Advance(n, Uncertain)]
  }

  function Readied(w: World, n: nat, id: string, expiresAt: int): World {
    World(w.store.(proposals := w.store.proposals[id := ApprovedRow(id, 0, expiresAt)]),
          w.points[n := Claiming(CallFor(id, 0), ApprovedRow(id, 0, expiresAt))],
          w.approvals + [Approval(id, Fingerprint(Order(id, 0, expiresAt)), "owner", 0)], w.posts, w.clock, w.sent)
  }

  /** The call passes the screening of its approved proposal. */
  lemma ScreenPasses(s: Store, id: string, at: int, expiresAt: int, now: int)
    requires id in s.proposals && s.proposals[id] == ApprovedRow(id, at, expiresAt) && now < expiresAt
    ensures Screen(s, CallFor(id, now)) == Proceeds(ApprovedRow(id, at, expiresAt))
  {
    assert Abs(0.0) == 0.0;
    assert FreshInputs(Order(id, at, expiresAt), CallFor(id, now));
  }

  lemma Approves(w: World, id: string, at: int, expiresAt: int)
    requires id !in w.store.proposals && expiresAt > at
    ensures var w2 := Step(Step(w, Propose(Order(id, at, expiresAt))),
                           Review(id, true, "owner", Fingerprint(Order(id, at, expiresAt)), None, at));
            w2 == w.(store := w.store.(proposals := w.store.proposals[id := ApprovedRow(id, at, expiresAt)]),
                     approvals := w.approvals + [Approval(id, Fingerprint(Order(id, at, expiresAt)), "owner", at)])
  {
    var w1 := Step(w, Propose(Order(id, at, expiresAt)));
    var pending := Proposal(Order(id, at, expiresAt), Fingerprint(Order(id, at, expiresAt)), Pending, None, None, None);
    assert w1 == w.(store := w.store.(proposals := w.store.proposals[id := pending]));
    var w2 := Step(w1, Review(id, true, "owner", Fingerprint(Order(id, at, expiresAt)), None, at));
    assert w2.store.proposals == w.store.proposals[id := ApprovedRow(id, at, expiresAt)];
  }

  lemma Tickets(id: string, at: int, expiresAt: int)
    ensures ApprovedRow(id, at, expiresAt).ticket == Order(id, at, expiresAt)
  {
  }

  lemma Weighs(w: World, n: nat, id: string, expiresAt: int)
    requires id in w.store.proposals && w.store.proposals[id] == ApprovedRow(id, 0, expiresAt) && expiresAt > 0
    requires w.store.claims == [] && PointOf(w, n) == Idle
    ensures var w3 := Step(Step(Step(w, Begin(n, CallFor(id, 0))), Advance(n, Uncertain)), Advance(n, Uncertain));
            w3 == At(w, n, Claiming(CallFor(id, 0), ApprovedRow(id, 0, expiresAt)))
  {
    hide PassesRisk, Screen, ApprovedRow, CallFor;
    var w1 := Step(w, Begin(n, CallFor(id, 0)));
    assert w1 == At(w, n, Called(CallFor(id, 0)));
    ScreenPasses(w.store, id, 0, expiresAt, 0);
    var w2 := Step(w1, Advance(n, Uncertain));
    assert w2 == At(w1, n, Weighing(CallFor(id, 0), ApprovedRow(id, 0, expiresAt)));
    Tickets(id, 0, expiresAt);
    Passes(w.store, id, 0, expiresAt, 0);
    var w3 := Step(w2, Advance(n, Uncertain));
    assert w3.points == w.points[n := Claiming(CallFor(id, 0), ApprovedRow(id, 0, expiresAt))];
  }

  lemma ReadyingReadies(w: World, n: nat, id: string, expiresAt: int)
    requires id !in w.store.proposals && w.store.claims == [] && PointOf(w, n) == Idle && expiresAt > 0
    ensures Steps(w, Readying(n, id, expiresAt)) == Readied(w, n, id, expiresAt)
  {
    hide Step, ApprovedRow, CallFor, Order, Steps;
    Approves(w, id, 0, expiresAt);
    var propose := Propose(Order(id, 0, expiresAt));
    var review := Review(id, true, "owner", Fingerprint(Order(id, 0, expiresAt)), None, 0);
    var begin, advance := Begin(n, CallFor(id, 0)), Advance(n, Uncertain);
    TwoSteps(w, propose, review);
    var w2 := Steps(w, [propose, review]);
    assert PointOf(w2, n) == PointOf(w, n);
    Weighs(w2, n, id, expiresAt);
    ThreeSteps(w2, begin, advance, advance);
    StepsAppend(w, [propose, review], [begin, advance, advance]);
  }

  // ---------- sending late ----------

  /** Every order leaves at most `delay` after its call read the clock. */
  predicate SendsWithin(w: World, act: Act, delay: int) {
    act.Advance? && PointOf(w, act.process).Sending? ==> w.clock <= PointOf(w, act.process).call.now + delay
  }

  predicate Prompt(w: World, acts: seq<Act>, delay: int)
    decreases |acts|
  {
    acts == [] || (SendsWithin(w, acts[0], delay) && Prompt(Step(w, acts[0]), acts[1..], delay))
  }

  /** The clock as each order left was within the delay of its call's reading. */
  ghost predicate SentSoon(w: World, delay: int) {
    |w.sent| == |w.posts| && forall i | 0 <= i < |w.sent| :: w.sent[i] <= w.posts[i].readAt + delay
  }

  lemma StepSentSoon(w: World, act: Act, delay: int)
    requires SentSoon(w, delay) && SendsWithin(w, act, delay)
    ensures SentSoon(Step(w, act), delay)
  {
    hide PassesRisk, EventAfter, EventReported, UpdateReported, UpdateAfter, FreshInputs, Replay, Decided, Updated,
         Retired, ClaimInserted;
  }

  lemma {:induction false} StepsSentSoon(w: World, acts: seq<Act>, delay: int)
    requires SentSoon(w, delay) && Prompt(w, acts, delay)
    ensures SentSoon(Steps(w, acts), delay)
    decreases |acts|
  {
    hide SentSoon, Step, SendsWithin;
    if acts != [] {
      StepSentSoon(w, acts[0], delay);
      StepsSentSoon(Step(w, acts[0]), acts[1..], delay);
    }
  }

  /** Every order whose call left its ticket this much longer to live was sent before the expiry. */
  ghost predicate InTime(w: World, life: int) {
    |w.sent| == |w.posts| && forall i | 0 <= i < |w.posts| && HasLeft(w, w.posts[i], life) ::
      w.sent[i] < w.posts[i].readAt + life
  }

  predicate HasLeft(w: World, p: Post, life: int) {
    p.id in w.store.proposals && w.store.proposals[p.id].ticket.expiresAt == p.readAt + life
  }

  /** The `i`th order left when its ticket had expired. */
  predicate LeftLate(w: World, i: nat) {
    i < |w.posts| && i < |w.sent| && w.posts[i].id in w.store.proposals
    && w.sent[i] >= w.store.proposals[w.posts[i].id].ticket.expiresAt
  }

  /** AN ORDER MAY LEAVE LATE: for every time to live no longer than the delay there is a run from the start
      whose one order leaves within the delay and after its ticket expired. */
  lemma LateSend(life: int, delay: int) returns (acts: seq<Act>)
    requires 0 < life <= delay
    ensures var w := Steps(START, acts);
            Prompt(START, acts, delay) && LeftLate(w, 0) && HasLeft(w, w.posts[0], life) && |w.sent| == |w.posts| == 1
  {
    var ready := Readying(0, "a", life);
    ReadyingReadies(START, 0, "a", life);
    var w := Readied(START, 0, "a", life);
    var rest := [Advance(0, Uncertain), Tick(delay), Advance(0, Uncertain)];
    acts := ready + rest;
    LateFrom(w, life, delay);
    StepsAppend(START, ready, rest);
    hide Step, Readying;
    PromptAppend(START, ready, rest, delay);
    ReadyingPrompt(life, delay);
  }

  lemma {:induction false} PromptAppend(w: World, a: seq<Act>, b: seq<Act>, delay: int)
    ensures Prompt(w, a + b, delay) <==> Prompt(w, a, delay) && Prompt(Steps(w, a), b, delay)
    decreases |a|
  {
    hide Step, SendsWithin;
    if a == [] {
      assert a + b == b;
    } else {
      assert (a + b)[0] == a[0] && (a + b)[1..] == a[1..] + b;
      PromptAppend(Step(w, a[0]), a[1..], b, delay);
    }
  }

  lemma NothingSending(w: World, acts: seq<Act>, delay: int)
    requires forall act | act in acts :: !act.Advance?
    ensures Prompt(w, acts, delay)
    decreases |acts|
  {
    hide Step;
    if acts != [] {
      assert acts[0] in acts;
      NothingSending(Step(w, acts[0]), acts[1..], delay);
    }
  }

  lemma ReadyingPrompt(life: int, delay: int)
    requires life > 0
    ensures Prompt(START, Readying(0, "a", life), delay)
  {
    hide PassesRisk, Screen, CallFor, Order;
    var advance := Advance(0, Uncertain);
    var start := [Propose(Order("a", 0, life)), Review("a", true, "owner", Fingerprint(Order("a", 0, life)), None, 0)]
                 + [Begin(0, CallFor("a", 0))];
    NothingSending(START, start, delay);
    var w := Steps(START, start);
    CalledAfter(life);
    assert Prompt(w, [advance, advance], delay) by {
      assert [advance, advance][1..] == [advance] && [advance][1..] == [];
      assert !PointOf(Step(w, advance), 0).Sending?;
      assert Prompt(Step(w, advance), [advance], delay);
    }
    hide Step;
    assert Readying(0, "a", life) == start + [advance, advance];
    PromptAppend(START, start, [advance, advance], delay);
  }

  lemma CalledAfter(life: int)
    ensures var start := [Propose(Order("a", 0, life)),
                          Review("a", true, "owner", Fingerprint(Order("a", 0, life)), None, 0)]
                         + [Begin(0, CallFor("a", 0))];
            PointOf(Steps(START, start), 0) == Called(CallFor("a", 0))
  {
    hide CallFor, Order;
    var a, b := Propose(Order("a", 0, life)), Review("a", true, "owner", Fingerprint(Order("a", 0, life)), None, 0);
    var w2 := Step(Step(START, a), b);
    assert PointOf(w2, 0) == Idle;
    TwoSteps(START, a, b);
    StepsSnoc(START, [a, b], Begin(0, CallFor("a", 0)));
  }

  /** Claimed, then sent when the clock has moved on by the whole delay. */
  lemma LateFrom(w: World, life: int, delay: int)
    requires 0 < life <= delay && w == Readied(START, 0, "a", life)
    ensures var rest := [Advance(0, Uncertain), Tick(delay), Advance(0, Uncertain)]; var w' := Steps(w, rest);
            Prompt(w, rest, delay) && LeftLate(w', 0) && HasLeft(w', w'.posts[0], life) && |w'.sent| == |w'.posts| == 1
  {
    hide PassesRisk, EventAfter, UpdateAfter;
    var a, b := Advance(0, Uncertain), Tick(delay);
    var call, row := CallFor("a", 0), ApprovedRow("a", 0, life);
    var w1 := Step(w, a);
    assert PointOf(w1, 0) == Sending(call, row);
    var w2 := Step(w1, b);
    var w3 := Step(w2, a);
    assert w3.posts == [PostOf(call, row, Uncertain)] && w3.sent == [delay];
    assert HasLeft(w3, w3.posts[0], life);
    hide Step;
    assert [a, b, a][1..] == [b, a] && [b, a][1..] == [a] && [a][1..] == [];
    ThreeSteps(w, a, b, a);
    assert Prompt(w2, [a], delay) && Prompt(w1, [b, a], delay);
  }

  ghost predicate AlwaysInTime(life: int, delay: int) {
    forall acts :: Prompt(START, acts, delay) ==> InTime(Steps(START, acts), life)
  }

  /** WHEN AN ORDER LEAVES IN TIME: the expiry is checked against the call's own reading only, so over
      all runs in which an order leaves within some delay of that reading, those of calls that left
      their tickets a given time to live are all sent before the expiry exactly when that time is longer
      than the delay. */
  lemma InTimeIff(life: int, delay: int)
    requires life > 0
    ensures AlwaysInTime(life, delay) <==> delay < life
  {
    if delay < life {
      forall acts | Prompt(START, acts, delay)
        ensures InTime(Steps(START, acts), life)
      {
        StepsSentSoon(START, acts, delay);
      }
    } else {
      var acts := LateSend(life, delay);
      assert !InTime(Steps(START, acts), life);
    }
  }

  // ---------- passing the check together ----------

  /** The processes from `k` on have passed the risk check for proposals nobody has claimed. */
  ghost predicate AboutToClaim(w: World, calls: seq<Call>, rows: seq<Proposal>, k: nat)
    requires |calls| == |rows|
  {
    && (forall i | k <= i < |calls| ::
          PointOf(w, i) == Claiming(calls[i], rows[i]) && calls[i].id !in w.store.executions)
    && (forall i, j | k <= i < j < |calls| :: calls[i].id != calls[j].id)
  }

  function PostsOf(calls: seq<Call>, rows: seq<Proposal>, answers: seq<Answer>, k: nat): (posts: seq<Post>)
    requires k <= |calls| == |rows| == |answers|
    ensures |posts| == |calls| - k
    decreases |calls| - k
  {
    if k == |calls| then [] else [PostOf(calls[k], rows[k], answers[k])] + PostsOf(calls, rows, answers, k + 1)
  }

  lemma ClaimAndSend(w: World, calls: seq<Call>, rows: seq<Proposal>, k: nat, answer: Answer)
    requires k < |calls| == |rows| && AboutToClaim(w, calls, rows, k)
    ensures var w' := Step(Step(w, Advance(k, answer)), Advance(k, answer));
            && AboutToClaim(w', calls, rows, k + 1) && w'.posts == w.posts + [PostOf(calls[k], rows[k], answer)]
            && w'.sent == w.sent + [w.clock] && w'.clock == w.clock
  {
    hide PassesRisk, EventAfter, UpdateAfter;
    assert PointOf(w, k) == Claiming(calls[k], rows[k]);
    var w1 := Step(w, Advance(k, answer));
    assert PointOf(w1, k) == Sending(calls[k], rows[k]);
    var w' := Step(w1, Advance(k, answer));
    forall i | k + 1 <= i < |calls|
      ensures PointOf(w', i) == Claiming(calls[i], rows[i]) && calls[i].id !in w'.store.executions
    {
      assert PointOf(w', i) == PointOf(w, i);
    }
  }

  /** Orders sent at one instant, on top of those sent before. */
  ghost predicate SentNow(w: World, w': World, posts: seq<Post>) {
    && w'.posts == w.posts + posts && w'.clock == w.clock
    && w'.sent == w.sent + seq(|posts|, _ => w.clock)
  }

  /** ALL WHO PASSED THE CHECK SEND: executions of different proposals that are all past the risk check
      before any of them claims all send their orders, however many they are. */
  lemma {:induction false} AllSend(w: World, calls: seq<Call>, rows: seq<Proposal>, answers: seq<Answer>, k: nat)
    returns (acts: seq<Act>)
    requires k <= |calls| == |rows| == |answers| && AboutToClaim(w, calls, rows, k)
    ensures SentNow(w, Steps(w, acts), PostsOf(calls, rows, answers, k))
    decreases |calls| - k
  {
    hide AboutToClaim, Step;
    if k == |calls| {
      return [];
    }
    hide Steps, PostOf, SentNow;
    ClaimAndSend(w, calls, rows, k, answers[k]);
    var a := Advance(k, answers[k]);
    TwoSteps(w, a, a);
    var w2 := Steps(w, [a, a]);
    var rest := AllSend(w2, calls, rows, answers, k + 1);
    StepsAppend(w, [a, a], rest);
    acts := [a, a] + rest;
    SentMore(w, w2, Steps(w2, rest), PostOf(calls[k], rows[k], answers[k]), PostsOf(calls, rows, answers, k + 1));
  }

  lemma SentMore(w: World, w2: World, w3: World, post: Post, posts: seq<Post>)
    requires w2.posts == w.posts + [post] && w2.sent == w.sent + [w.clock] && w2.clock == w.clock
    requires SentNow(w2, w3, posts)
    ensures SentNow(w, w3, [post] + posts)
  {
    assert [w.clock] + seq(|posts|, _ => w.clock) == seq(|posts| + 1, _ => w.clock);
  }

  // ---------- from the start ----------

  function Name(i: nat): (s: string)
    ensures |s| == i
  {
    seq(i, _ => 'a')
  }

  ghost predicate ReadyUpTo(w: World, n: nat) {
    && w.store.executions == map[] && w.store.claims == [] && w.posts == [] && w.sent == [] && w.clock == 0
    && (forall i | 0 <= i < n :: PointOf(w, i) == Claiming(CallFor(Name(i), 0), ApprovedRow(Name(i), 0, 1)))
    && (forall i | i >= n :: PointOf(w, i) == Idle && Name(i) !in w.store.proposals)
  }

  lemma {:induction false} Prepare(n: nat) returns (acts: seq<Act>)
    ensures ReadyUpTo(Steps(START, acts), n)
  {
    if n == 0 {
      return [];
    }
    acts := Prepare(n - 1);
    var w := Steps(START, acts);
    assert PointOf(w, n - 1) == Idle && Name(n - 1) !in w.store.proposals;
    hide Steps, Readying, Readied;
    ReadyingReadies(w, n - 1, Name(n - 1), 1);
    StepsAppend(START, acts, Readying(n - 1, Name(n - 1), 1));
    OneMore(w, n - 1);
    acts := acts + Readying(n - 1, Name(n - 1), 1);
  }

  lemma OneMore(w: World, n: nat)
    requires ReadyUpTo(w, n)
    ensures ReadyUpTo(Readied(w, n, Name(n), 1), n + 1)
  {
    hide CallFor, ApprovedRow, Order;
    var w' := Readied(w, n, Name(n), 1);
    forall i: nat
      ensures PointOf(w', i) == if i == n then Claiming(CallFor(Name(n), 0), ApprovedRow(Name(n), 0, 1))
              else PointOf(w, i)
    {
    }
    forall i | i >= n + 1
      ensures PointOf(w', i) == Idle && Name(i) !in w'.store.proposals
    {
      assert PointOf(w, i) == Idle && Name(i) !in w.store.proposals;
      assert |Name(i)| != |Name(n)|;
    }
  }

  function Names(n: nat): set<string> {
    if n == 0 then {} else Names(n - 1) + {Name(n - 1)}
  }

  lemma {:induction false} NamesSize(n: nat)
    ensures |Names(n)| == n && forall s | s in Names(n) :: |s| < n
  {
    if n > 0 {
      NamesSize(n - 1);
      assert Name(n - 1) !in Names(n - 1);
    }
  }

  function CallsFor(n: nat): seq<Call> { seq(n, i requires 0 <= i < n => CallFor(Name(i), 0)) }
  function RowsFor(n: nat): seq<Proposal> { seq(n, i requires 0 <= i < n => ApprovedRow(Name(i), 0, 1)) }
  function PlacedFor(n: nat): seq<Answer> { seq(n, i requires 0 <= i < n => Accepted(Placed(Name(i)))) }

  lemma {:induction false} PostsAt(calls: seq<Call>, rows: seq<Proposal>, answers: seq<Answer>, k: nat, j: nat)
    requires k + j < |calls| == |rows| == |answers|
    ensures PostsOf(calls, rows, answers, k)[j] == PostOf(calls[k + j], rows[k + j], answers[k + j])
    decreases j
  {
    hide PostOf;
    if j > 0 {
      PostsAt(calls, rows, answers, k + 1, j - 1);
    }
  }

  /** Each of these calls posts its own order, and the broker takes it. */
  lemma PostedNames(n: nat, j: nat)
    requires j < n
    ensures var post := PostsOf(CallsFor(n), RowsFor(n), PlacedFor(n), 0)[j];
            post.id == Name(j) && |post.ticker| == j + 1 && post.answer.Accepted?
  {
    hide PostsOf;
    PostsAt(CallsFor(n), RowsFor(n), PlacedFor(n), 0, j);
  }

  lemma {:induction false} InNames(n: nat, i: nat)
    requires i < n
    ensures Name(i) in Names(n)
  {
    if i < n - 1 {
      InNames(n - 1, i);
    }
  }

  lemma {:induction false} NamesAre(n: nat, s: string)
    requires s in Names(n)
    ensures exists i: nat :: i < n && s == Name(i)
  {
    if s !in Names(n - 1) {
      assert s == Name(n - 1);
    } else {
      NamesAre(n - 1, s);
    }
  }

  lemma ReadyToClaim(w: World, n: nat)
    requires ReadyUpTo(w, n)
    ensures |CallsFor(n)| == |RowsFor(n)| == |PlacedFor(n)| == n && AboutToClaim(w, CallsFor(n), RowsFor(n), 0)
    ensures w.posts == [] && w.sent == [] && w.clock == 0
  {
    hide ApprovedRow, Order;
    assert forall i | 0 <= i < n :: |CallsFor(n)[i].id| == i;
  }

  /** No two orders are for one instrument, so none of them duplicates another's open proposal. */
  predicate TickersDiffer(w: World) {
    forall i, j | 0 <= i < j < |w.posts| :: w.posts[i].ticker != w.posts[j].ticker
  }

  /** NO WEEKLY LIMIT ACROSS CONCURRENT EXECUTIONS: for every number there is a run from the start in
      which that many orders, each for its own instrument and taken by the broker, are sent in one week. */
  lemma ConcurrentOrders(n: nat) returns (acts: seq<Act>)
    ensures |SentIds(Steps(START, acts), WeekStart(0))| == n && TickersDiffer(Steps(START, acts))
  {
    var ready := Prepare(n);
    var w := Steps(START, ready);
    var calls, rows, answers := CallsFor(n), RowsFor(n), PlacedFor(n);
    ReadyToClaim(w, n);
    hide *;
    var sends := AllSend(w, calls, rows, answers, 0);
    StepsAppend(START, ready, sends);
    acts := ready + sends;
    SentTogether(w, Steps(START, acts), n);
  }

  lemma SentTogether(w: World, w': World, n: nat)
    requires w.posts == [] && w.sent == [] && w.clock == 0 && |CallsFor(n)| == |RowsFor(n)| == |PlacedFor(n)| == n
    requires SentNow(w, w', PostsOf(CallsFor(n), RowsFor(n), PlacedFor(n), 0))
    ensures |SentIds(w', WeekStart(0))| == n && TickersDiffer(w')
  {
    hide WeekStart, PostsOf, CallsFor, RowsFor, PlacedFor, Name, SentIds;
    assert w'.posts == PostsOf(CallsFor(n), RowsFor(n), PlacedFor(n), 0);
    forall j | 0 <= j < n
      ensures w'.posts[j].id == Name(j) && |w'.posts[j].ticker| == j + 1 && w'.posts[j].answer.Accepted?
    {
      PostedNames(n, j);
    }
    SentAreNames(w', n, WeekStart(0));
  }

  lemma SentAreNames(w: World, n: nat, monday: int)
    requires |w.posts| == |w.sent| == n
    requires forall j | 0 <= j < n ::
               w.posts[j].id == Name(j) && !w.posts[j].answer.Refused? && WeekStart(w.sent[j]) == monday
    ensures |SentIds(w, monday)| == n
  {
    hide WeekStart, Name;
    var sent := SentIds(w, monday);
    forall s
      ensures s in sent <==> s in Names(n)
    {
      if s in sent {
        var i: nat :| i < |w.posts| && SentIn(w, i, monday) && w.posts[i].id == s;
        InNames(n, i);
      }
      if s in Names(n) {
        NamesAre(n, s);
        var i: nat :| i < n && s == Name(i);
        assert SentIn(w, i, monday) && w.posts[i].id == s;
      }
    }
    assert sent == Names(n);
    NamesSize(n);
  }

  // ---------- an execute overtakes a reconcile ----------

  /** A run from the start, its readings in order, in which one reconcile moves a submission time back: it
      reads the clock, an execute of the same proposal reads it later, sends and records, and then the
      reconcile finds the order. */
  lemma ExecuteOvertakesReconcile() returns (before: seq<Act>, after: seq<Act>)
    ensures InOrder(before + after)
    ensures var w, w' := Steps(START, before), Steps(START, before + after);
            && "a" in w.store.executions && w.store.executions["a"].submittedAt == Some(0)
            && "a" in w'.store.executions && w'.store.executions["a"].submittedAt == Some(-1)
  {
    var placed := Accepted(Placed("a"));
    var call, row := CallFor("a", 0), ApprovedRow("a", 0, 1);
    var start := [Ask(1, "a", -1)] + Readying(0, "a", 1) + [Advance(0, Uncertain)];
    var sending := Steps(START, start);
    AskedAndClaimed();
    hide *;
    ExecuteOvertakes(sending, 1, 0, call, row, -1, Placed("a"), Placed("a"));
    var sends := [Advance(0, placed), Advance(0, placed)];
    before := start + sends;
    StepsAppend(START, start, sends);
    after := [Advance(1, placed), Advance(1, placed), Advance(1, placed)];
    StepsAppend(START, before, after);
    OvertakingInOrder(start, sends, after);
  }

  lemma AskedAndClaimed()
    ensures var call, row := CallFor("a", 0), ApprovedRow("a", 0, 1);
            var w := Steps(START, [Ask(1, "a", -1)] + Readying(0, "a", 1) + [Advance(0, Uncertain)]);
            && PointOf(w, 0) == Sending(call, row) && PointOf(w, 1) == Seeking("a", -1) && "a" in w.store.executions
            && call.now == 0 && call.id == "a"
            && Confirms(Placed("a"), row.ticket) && Placed("a").orderId.value != "" && Open(Placed("a"))
  {
    var ask, claim := Ask(1, "a", -1), Advance(0, Uncertain);
    var asked := At(START, 1, Seeking("a", -1));
    assert Step(START, ask) == asked;
    var call, row := CallFor("a", 0), ApprovedRow("a", 0, 1);
    assert Confirms(Placed("a"), row.ticket) && call.now == 0 && call.id == "a";
    ClaimsAfter(asked);
    hide Step, Steps, Readying, Readied, CallFor, ApprovedRow, Confirms;
    ReadyingReadies(asked, 0, "a", 1);
    OneStep(START, ask);
    StepsAppend(START, [ask], Readying(0, "a", 1));
    StepsSnoc(START, [ask] + Readying(0, "a", 1), claim);
  }

  lemma ClaimsAfter(asked: World)
    requires asked == At(START, 1, Seeking("a", -1))
    ensures var w := Step(Readied(asked, 0, "a", 1), Advance(0, Uncertain));
            && PointOf(w, 0) == Sending(CallFor("a", 0), ApprovedRow("a", 0, 1)) && PointOf(w, 1) == Seeking("a", -1)
            && "a" in w.store.executions
  {
    hide ApprovedRow, EventAfter, UpdateAfter, PassesRisk;
    var ready := Readied(asked, 0, "a", 1);
    assert PointOf(ready, 0) == Claiming(CallFor("a", 0), ApprovedRow("a", 0, 1));
    assert "a" !in ready.store.executions;
  }

  lemma OvertakingInOrder(start: seq<Act>, sends: seq<Act>, after: seq<Act>)
    requires start == [Ask(1, "a", -1)] + Readying(0, "a", 1) + [Advance(0, Uncertain)]
    requires forall act | act in sends + after :: act.Advance?
    ensures InOrder(start + sends + after)
  {
    var rest := Readying(0, "a", 1) + [Advance(0, Uncertain)] + sends + after;
    forall act | act in rest
      ensures Reading(act).None? || Reading(act) == Some(0)
    {
      if act !in Readying(0, "a", 1) && act != Advance(0, Uncertain) {
        assert act in sends + after;
      }
    }
    hide InOrder, Readying;
    FirstThenZero(Ask(1, "a", -1), rest);
    assert start + sends + after == [Ask(1, "a", -1)] + rest;
  }

  lemma FirstThenZero(ask: Act, rest: seq<Act>)
    requires Reading(ask) == Some(-1) && forall act | act in rest :: Reading(act).None? || Reading(act) == Some(0)
    ensures InOrder([ask] + rest)
  {
    hide Reading;
    assert forall i | 0 < i < |[ask] + rest| :: ([ask] + rest)[i] in rest;
  }

  lemma OneStep(w: World, a: Act)
    ensures Steps(w, [a]) == Step(w, a)
  {
    hide Step;
    assert [a][1..] == [];
    assert Steps(w, [a]) == Steps(Step(w, a), []);
  }
}
