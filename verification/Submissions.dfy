/** What the protocol keeps of `submitted_at` (src/japan_agent/storage.py:520-560). */
module Submissions {
  import opened Prelude
  import opened Storage
  import opened Execution
  import opened Protocol

  /** Every submission time of `s` is still there in `s'`, and none has moved back. */
  ghost predicate Forward(s: Store, s': Store) {
    forall id | id in s.executions && s.executions[id].submittedAt.Some? ::
      && id in s'.executions && s'.executions[id].submittedAt.Some?
      && s.executions[id].submittedAt.value <= s'.executions[id].submittedAt.value
  }

  ghost predicate StillSubmitted(s: Store, s': Store) {
    forall id | id in s.executions && s.executions[id].submittedAt.Some? ::
      id in s'.executions && s'.executions[id].submittedAt.Some?
  }

  lemma ReviewLeaves(w: World, act: Act)
    requires act.Review?
    ensures Step(w, act).store.executions == w.store.executions
    ensures Step(w, act).points == w.points
  {
  }

  lemma StepKeepsSubmitted(w: World, act: Act)
    ensures StillSubmitted(w.store, Step(w, act).store)
  {
    if act.Review? {
      ReviewLeaves(w, act);
    }
    hide Decided, Screened, PassesRisk, UpdateAfter, EventAfter, UpdateReported, EventReported, Sought;
  }

  /** A step moves a submission time back only by recording a possibly live state with an earlier reading. */
  lemma OnlyRecordingMoves(w: World, act: Act, id: string)
    requires id in w.store.executions && w.store.executions[id].submittedAt.Some?
    ensures id in Step(w, act).store.executions && Step(w, act).store.executions[id].submittedAt.Some?
    ensures Step(w, act).store.executions[id].submittedAt.value < w.store.executions[id].submittedAt.value <==>
            && act.Advance? && PointOf(w, act.process).Recording?
            && PointOf(w, act.process).update.id == id && MayBeLive(PointOf(w, act.process).update.state)
            && PointOf(w, act.process).update.at < w.store.executions[id].submittedAt.value
  {
    if act.Review? {
      ReviewLeaves(w, act);
    }
    hide Decided, Screened, PassesRisk, UpdateAfter, EventAfter, UpdateReported, EventReported, Sought;
    StepKeepsSubmitted(w, act);
  }

  /** Of two recorded submissions the newest write is kept. */
  lemma NewestKept(s: Store, first: Update, second: Update)
    requires first.id in s.executions && second.id == first.id
    requires MayBeLive(first.state) && MayBeLive(second.state)
    ensures Updated(Updated(s, first), second).executions[first.id].submittedAt == Some(second.at)
  {
  }

  /** ONCE SUBMITTED, ALWAYS SUBMITTED: no interleaving ever clears a submission time. */
  lemma {:induction false} NeverCleared(w: World, acts: seq<Act>)
    ensures StillSubmitted(w.store, Steps(w, acts).store)
    decreases |acts|
  {
    hide Step;
    if acts != [] {
      StepKeepsSubmitted(w, acts[0]);
      NeverCleared(Step(w, acts[0]), acts[1..]);
    }
  }

  predicate Open(report: Response) { report.status.FilledByBroker? || report.status.OtherBrokerStatus? }

  /** A reconcile that has read its row. */
  lemma AskFound(w: World, n: nat, id: string, now: int, answer: Answer)
    requires PointOf(w, n) == Idle && KnowsOrder(w.store, id)
    ensures var w2 := Step(Step(w, Ask(n, id, now)), Advance(n, answer));
            && w2.store == w.store && PointOf(w2, n) == Asking(id, w.store.executions[id].orderId.value, now)
            && forall m | m != n :: PointOf(w2, m) == PointOf(w, m)
  {
  }

  lemma Answered(w: World, n: nat, id: string, orderId: string, now: int, report: Response)
    requires PointOf(w, n) == Asking(id, orderId, now) && Open(report) && id in w.store.executions
    ensures var w2 := Step(Step(w, Advance(n, Accepted(report))), Advance(n, Accepted(report)));
            && id in w2.store.executions && w2.store.executions[id].submittedAt == Some(now)
            && forall m | m != n :: PointOf(w2, m) == PointOf(w, m)
  {
  }

  /** TWO OVERLAPPING RECONCILES move the time back although the clock never does: from any world in which
      an order is known and two processes are idle, the second to read the clock records first. */
  lemma OverlapMovesBack(w: World, id: string, m: nat, n: nat, a: int, b: int, report: Response)
    requires m != n && PointOf(w, m) == Idle && PointOf(w, n) == Idle && KnowsOrder(w.store, id)
    requires a < b && Open(report)
    ensures var answer := Accepted(report);
            var asked := Steps(w, [Ask(m, id, a), Advance(m, answer), Ask(n, id, b), Advance(n, answer)]);
            var first := Steps(asked, [Advance(n, answer), Advance(n, answer)]);
            var second := Steps(first, [Advance(m, answer), Advance(m, answer)]);
            && id in first.store.executions && first.store.executions[id].submittedAt == Some(b)
            && id in second.store.executions && second.store.executions[id].submittedAt == Some(a)
  {
    hide Step;
    var answer := Accepted(report);
    var orderId := w.store.executions[id].orderId.value;
    AskFound(w, m, id, a, answer);
    var w1 := Step(Step(w, Ask(m, id, a)), Advance(m, answer));
    AskFound(w1, n, id, b, answer);
    FourSteps(w, Ask(m, id, a), Advance(m, answer), Ask(n, id, b), Advance(n, answer));
    var asked := Steps(w, [Ask(m, id, a), Advance(m, answer), Ask(n, id, b), Advance(n, answer)]);
    Answered(asked, n, id, orderId, b, report);
    TwoSteps(asked, Advance(n, answer), Advance(n, answer));
    var first := Steps(asked, [Advance(n, answer), Advance(n, answer)]);
    Answered(first, m, id, orderId, a, report);
    TwoSteps(first, Advance(m, answer), Advance(m, answer));
  }

  /** ONE RECONCILE IS ENOUGH: from any world in which it has read the clock and an execute of the same
      proposal, which read it later, is about to send, the order is sent and recorded and then the
      reconcile finds it and moves its time back. */
  lemma ExecuteOvertakes(w: World, m: nat, n: nat, call: Call, row: Proposal, a: int, placed: Response,
                         report: Response)
    requires m != n && PointOf(w, n) == Sending(call, row) && PointOf(w, m) == Seeking(call.id, a) && a < call.now
    requires call.id in w.store.executions && Confirms(placed, row.ticket) && placed.orderId.value != "" && Open(report)
    ensures var first := Steps(w, [Advance(n, Accepted(placed)), Advance(n, Accepted(placed))]);
            var find := Advance(m, Accepted(report));
            var second := Steps(first, [find, find, find]);
            && call.id in first.store.executions && first.store.executions[call.id].submittedAt == Some(call.now)
            && call.id in second.store.executions && second.store.executions[call.id].submittedAt == Some(a)
  {
    hide Step;
    SentAndRecorded(w, n, call, row, placed);
    TwoSteps(w, Advance(n, Accepted(placed)), Advance(n, Accepted(placed)));
    var first := Steps(w, [Advance(n, Accepted(placed)), Advance(n, Accepted(placed))]);
    assert PointOf(first, m) == Seeking(call.id, a);
    Found(first, m, call.id, a, Accepted(report));
    var find := Advance(m, Accepted(report));
    Answered(Step(first, find), m, call.id, first.store.executions[call.id].orderId.value, a, report);
    ThreeSteps(first, find, find, find);
  }

  lemma SentAndRecorded(w: World, n: nat, call: Call, row: Proposal, placed: Response)
    requires PointOf(w, n) == Sending(call, row) && call.id in w.store.executions
    requires Confirms(placed, row.ticket) && placed.orderId.value != ""
    ensures var w2 := Step(Step(w, Advance(n, Accepted(placed))), Advance(n, Accepted(placed)));
            && KnowsOrder(w2.store, call.id) && w2.store.executions[call.id].submittedAt == Some(call.now)
            && forall m | m != n :: PointOf(w2, m) == PointOf(w, m)
  {
    assert placed.orderId.Some?;
    hide Confirms;
  }

  lemma Found(w: World, m: nat, id: string, now: int, answer: Answer)
    requires PointOf(w, m) == Seeking(id, now) && KnowsOrder(w.store, id)
    ensures var w' := Step(w, Advance(m, answer));
            w'.store == w.store && PointOf(w', m) == Asking(id, w.store.executions[id].orderId.value, now)
  {
  }
}
