/** When a submission time moves back although the clock does not: exactly when a reconcile that read the
    clock first records after an execute or another reconcile of the same proposal that read it later
    (src/japan_agent/execute/service.py:101-300, src/japan_agent/storage.py:520-560). */
module Overlaps {
  import opened Prelude
  import opened Storage
  import opened Execution
  import opened Protocol
  import opened Submissions

  /** The clock reading an operation takes as it begins. */
  function Reading(act: Act): Option<int> {
    match act
    case Begin(_, call) => Some(call.now)
    case Ask(_, _, now) => Some(now)
    case _ => None
  }

  /** The readings never run back. */
  ghost predicate InOrder(acts: seq<Act>) {
    forall i, j | 0 <= i < j < |acts| && Reading(acts[i]).Some? && Reading(acts[j]).Some? ::
      Reading(acts[i]).value <= Reading(acts[j]).value
  }

  /** What the acts so far led to: the world, the act with which each process last began an operation, and
      the act that began the operation whose reading is each proposal's recorded submission time. */
  datatype Trace = Trace(world: World, since: map<nat, nat>, wrote: map<string, nat>)

  predicate Begins(w: World, act: Act) {
    (act.Begin? || act.Ask?) && PointOf(w, act.process) == Idle
  }

  /** The act records a state in which the order may be live. */
  predicate RecordsLive(w: World, act: Act) {
    && act.Advance? && PointOf(w, act.process).Recording?
    && MayBeLive(PointOf(w, act.process).update.state) && PointOf(w, act.process).update.id in w.store.executions
  }

  function Next(t: Trace, act: Act, k: nat): Trace {
    Trace(Step(t.world, act),
          if Begins(t.world, act) then t.since[act.process := k] else t.since,
          if RecordsLive(t.world, act) && act.process in t.since
          then t.wrote[PointOf(t.world, act.process).update.id := t.since[act.process]] else t.wrote)
  }

  function Told(acts: seq<Act>): Trace {
    if acts == [] then Trace(START, map[], map[])
    else Next(Told(acts[..|acts| - 1]), acts[|acts| - 1], |acts| - 1)
  }

  lemma {:induction false} ToldWorld(acts: seq<Act>)
    ensures Told(acts).world == Steps(START, acts)
  {
    hide Step;
    if acts != [] {
      var n := |acts| - 1;
      ToldWorld(acts[..n]);
      StepsSnoc(START, acts[..n], acts[n]);
      assert acts == acts[..n] + [acts[n]];
    }
  }

  // ---------- the invariant ----------

  predicate ClaimedRow(s: Store, id: string) { id in s.executions && s.executions[id].state == ExecClaimed }
  predicate WrittenRow(s: Store, id: string) { id in s.executions && s.executions[id].state != ExecClaimed }

  predicate BegunBy(acts: seq<Act>, k: nat, n: nat, call: Call) { k < |acts| && acts[k] == Begin(n, call) }
  predicate AskedBy(acts: seq<Act>, k: nat, n: nat, id: string, now: int) { k < |acts| && acts[k] == Ask(n, id, now) }

  predicate RecordBegun(acts: seq<Act>, k: nat, n: nat, u: Update) {
    k < |acts| && acts[k].Begin? && acts[k].process == n && acts[k].call.id == u.id && acts[k].call.now == u.at
  }

  /** The events only a reconcile leaves. */
  predicate ByReconcile(kind: EventKind) {
    kind == OrderFilled || kind == OrderTerminalWithoutFill || kind == OrderReconciledOpen
  }

  predicate PointTold(acts: seq<Act>, t: Trace, n: nat, point: Point) {
    match point
    case Called(call) => n in t.since && BegunBy(acts, t.since[n], n, call)
    case Weighing(call, _) => n in t.since && BegunBy(acts, t.since[n], n, call)
    case Claiming(call, _) => n in t.since && BegunBy(acts, t.since[n], n, call)
    case Sending(call, _) =>
      n in t.since && BegunBy(acts, t.since[n], n, call) && ClaimedRow(t.world.store, call.id)
    case Seeking(id, now) => n in t.since && AskedBy(acts, t.since[n], n, id, now)
    case Asking(id, _, now) =>
      n in t.since && AskedBy(acts, t.since[n], n, id, now) && WrittenRow(t.world.store, id)
    case Recording(u, kind) =>
      n in t.since && u.state != ExecClaimed
      && (|| (RecordBegun(acts, t.since[n], n, u) && ClaimedRow(t.world.store, u.id) && !ByReconcile(kind))
          || (AskedBy(acts, t.since[n], n, u.id, u.at) && WrittenRow(t.world.store, u.id) && ByReconcile(kind)))
    case _ => true
  }

  /** The claim a process holds and has not recorded yet. */
  function Claim(acts: seq<Act>, t: Trace, n: nat): Option<string> {
    match PointOf(t.world, n)
    case Sending(call, _) => Some(call.id)
    case Recording(u, _) => if n in t.since && t.since[n] < |acts| && acts[t.since[n]].Begin? then Some(u.id) else None
    case _ => None
  }

  /** The act calls an execute or a reconcile of this proposal. */
  predicate Calls(act: Act, id: string) {
    (act.Begin? && act.call.id == id) || (act.Ask? && act.id == id)
  }

  predicate WrittenBy(acts: seq<Act>, t: Trace, id: string, at: int) {
    id in t.wrote && t.wrote[id] < |acts| && Reading(acts[t.wrote[id]]) == Some(at) && Calls(acts[t.wrote[id]], id)
  }

  predicate RowTold(acts: seq<Act>, t: Trace, id: string)
    requires id in t.world.store.executions
  {
    var row := t.world.store.executions[id];
    && (row.state == ExecClaimed ==> row.orderId.None? && row.submittedAt.None?)
    && (row.submittedAt.Some? ==> WrittenBy(acts, t, id, row.submittedAt.value))
  }

  ghost predicate PointsTold(acts: seq<Act>, t: Trace) {
    forall n :: PointTold(acts, t, n, PointOf(t.world, n))
  }

  ghost predicate RowsTold(acts: seq<Act>, t: Trace) {
    forall id | id in t.world.store.executions :: RowTold(acts, t, id)
  }

  ghost predicate OneClaimant(acts: seq<Act>, t: Trace) {
    forall m, n | Claim(acts, t, m).Some? && Claim(acts, t, m) == Claim(acts, t, n) :: m == n
  }

  ghost predicate Consistent(acts: seq<Act>, t: Trace) {
    PointsTold(acts, t) && RowsTold(acts, t) && OneClaimant(acts, t)
  }

  // ---------- every step keeps it ----------

  function PointId(point: Point): Option<string> {
    match point
    case Sending(call, _) => Some(call.id)
    case Asking(id, _, _) => Some(id)
    case Recording(u, _) => Some(u.id)
    case _ => None
  }

  /** What a process that works on this execution needs of a step of another one. */
  predicate RowKept(t: Trace, t': Trace, id: string) {
    && (ClaimedRow(t.world.store, id) ==> ClaimedRow(t'.world.store, id))
    && (WrittenRow(t.world.store, id) ==> WrittenRow(t'.world.store, id))
  }

  lemma PointSurvives(acts: seq<Act>, act: Act, t: Trace, t': Trace, m: nat, point: Point)
    requires PointTold(acts, t, m, point)
    requires m in t.since ==> m in t'.since && t'.since[m] == t.since[m]
    requires PointId(point).Some? ==> RowKept(t, t', PointId(point).value)
    ensures PointTold(acts + [act], t', m, point)
  {
  }

  lemma RowSurvives(acts: seq<Act>, act: Act, t: Trace, t': Trace, id: string)
    requires id in t.world.store.executions && RowTold(acts, t, id)
    requires id in t'.world.store.executions && t'.world.store.executions[id] == t.world.store.executions[id]
    requires id in t.wrote ==> id in t'.wrote && t'.wrote[id] == t.wrote[id]
    ensures RowTold(acts + [act], t', id)
  {
  }

  ghost predicate WritersPast(acts: seq<Act>, t: Trace) {
    forall id | id in t.wrote :: t.wrote[id] < |acts|
  }

  /** A step of process `n` that touches no execution and makes no new claim. */
  lemma RowsUntouched(acts: seq<Act>, act: Act, t: Trace, t': Trace, n: nat)
    requires Consistent(acts, t) && WritersPast(acts, t)
    requires t'.world.store.executions == t.world.store.executions && t'.wrote == t.wrote
    requires forall m | m != n :: PointOf(t'.world, m) == PointOf(t.world, m)
    requires forall m | m != n && m in t.since :: m in t'.since && t'.since[m] == t.since[m]
    requires PointTold(acts + [act], t', n, PointOf(t'.world, n))
    requires Claim(acts + [act], t', n).None? || Claim(acts + [act], t', n) == Claim(acts, t, n)
    ensures Consistent(acts + [act], t') && WritersPast(acts + [act], t')
  {
    hide PointTold, RowTold, Claim;
    forall m
      ensures PointTold(acts + [act], t', m, PointOf(t'.world, m))
    {
      if m != n {
        PointSurvives(acts, act, t, t', m, PointOf(t.world, m));
      }
    }
    forall id | id in t'.world.store.executions
      ensures RowTold(acts + [act], t', id)
    {
      RowSurvives(acts, act, t, t', id);
    }
    forall m
      ensures Claim(acts + [act], t', m).None? || Claim(acts + [act], t', m) == Claim(acts, t, m)
    {
      if m != n {
        ClaimSurvives(acts, act, t, t', m);
      }
    }
  }

  lemma ClaimSurvives(acts: seq<Act>, act: Act, t: Trace, t': Trace, m: nat)
    requires PointTold(acts, t, m, PointOf(t.world, m)) && PointOf(t'.world, m) == PointOf(t.world, m)
    requires m in t.since ==> m in t'.since && t'.since[m] == t.since[m]
    ensures Claim(acts + [act], t', m) == Claim(acts, t, m)
  {
  }

  /** A step in which no process moves. */
  lemma NobodyMoves(acts: seq<Act>, act: Act, t: Trace, t': Trace)
    requires Consistent(acts, t) && WritersPast(acts, t)
    requires t'.world.store.executions == t.world.store.executions && t'.world.points == t.world.points
    requires t'.wrote == t.wrote && t'.since == t.since
    ensures Consistent(acts + [act], t') && WritersPast(acts + [act], t')
  {
    hide PointTold, Claim, RowTold;
    assert PointOf(t'.world, 0) == PointOf(t.world, 0);
    PointSurvives(acts, act, t, t', 0, PointOf(t.world, 0));
    ClaimSurvives(acts, act, t, t', 0);
    RowsUntouched(acts, act, t, t', 0);
  }

  lemma CallTold(acts: seq<Act>, t: Trace, act: Act)
    requires Consistent(acts, t) && WritersPast(acts, t) && (act.Begin? || act.Ask?)
    ensures var t' := Next(t, act, |acts|);
            Consistent(acts + [act], t') && WritersPast(acts + [act], t')
  {
    hide Consistent, WritersPast;
    var t' := Next(t, act, |acts|);
    if PointOf(t.world, act.process) == Idle {
      RowsUntouched(acts, act, t, t', act.process);
    } else {
      NobodyMoves(acts, act, t, t');
    }
  }

  lemma ClaimTold(acts: seq<Act>, t: Trace, n: nat, answer: Answer, call: Call, row: Proposal)
    requires Consistent(acts, t) && WritersPast(acts, t)
    requires PointOf(t.world, n) == Claiming(call, row) && call.id !in t.world.store.executions
    ensures var act := Advance(n, answer); var t' := Next(t, act, |acts|);
            Consistent(acts + [act], t') && WritersPast(acts + [act], t')
  {
    hide PassesRisk, EventAfter, UpdateAfter, EventReported;
    var act := Advance(n, answer);
    var t' := Next(t, act, |acts|);
    assert PointTold(acts, t, n, PointOf(t.world, n));
    assert PointOf(t'.world, n) == Sending(call, row);
    forall m
      ensures PointTold(acts + [act], t', m, PointOf(t'.world, m))
      ensures m != n ==> Claim(acts + [act], t', m) == Claim(acts, t, m) != Some(call.id)
    {
      if m != n {
        assert PointOf(t'.world, m) == PointOf(t.world, m);
        assert PointTold(acts, t, m, PointOf(t.world, m));
        PointSurvives(acts, act, t, t', m, PointOf(t.world, m));
        ClaimSurvives(acts, act, t, t', m);
      }
    }
    hide PointTold, Claim;
    forall id | id in t'.world.store.executions
      ensures RowTold(acts + [act], t', id)
    {
      if id != call.id {
        RowSurvives(acts, act, t, t', id);
      }
    }
  }

  /** Nobody else holds the claim or reconciles the proposal while its claim is unrecorded, and a
      reconcile's record leaves the other reconciles as they were. */
  lemma OthersKept(acts: seq<Act>, t: Trace, n: nat, answer: Answer, m: nat)
    requires Consistent(acts, t) && WritersPast(acts, t) && PointOf(t.world, n).Recording? && m != n
    ensures var t' := Next(t, Advance(n, answer), |acts|);
            PointId(PointOf(t.world, m)).Some? ==> RowKept(t, t', PointId(PointOf(t.world, m)).value)
  {
    hide PassesRisk, EventAfter, UpdateAfter, EventReported, UpdateReported;
    assert PointTold(acts, t, n, PointOf(t.world, n)) && PointTold(acts, t, m, PointOf(t.world, m));
    assert Claim(acts, t, m).Some? && Claim(acts, t, m) == Claim(acts, t, n) ==> m == n;
  }

  lemma RecordTold(acts: seq<Act>, t: Trace, n: nat, answer: Answer)
    requires Consistent(acts, t) && WritersPast(acts, t) && PointOf(t.world, n).Recording?
    ensures var act := Advance(n, answer); var t' := Next(t, act, |acts|);
            Consistent(acts + [act], t') && WritersPast(acts + [act], t')
  {
    hide PassesRisk, EventAfter, UpdateAfter, EventReported, UpdateReported, RowKept;
    var act := Advance(n, answer);
    var t' := Next(t, act, |acts|);
    var u := PointOf(t.world, n).update;
    assert PointTold(acts, t, n, PointOf(t.world, n)) && RowTold(acts, t, u.id);
    RecordedRow(acts, t, n, answer);
    forall m
      ensures PointTold(acts + [act], t', m, PointOf(t'.world, m))
      ensures Claim(acts + [act], t', m) == if m == n then None else Claim(acts, t, m)
    {
      if m != n {
        assert PointOf(t'.world, m) == PointOf(t.world, m);
        assert PointTold(acts, t, m, PointOf(t.world, m));
        OthersKept(acts, t, n, answer, m);
        PointSurvives(acts, act, t, t', m, PointOf(t.world, m));
        ClaimSurvives(acts, act, t, t', m);
      }
    }
    hide PointTold, Claim;
    forall id | id in t'.world.store.executions
      ensures RowTold(acts + [act], t', id)
    {
      if id != u.id {
        RowSurvives(acts, act, t, t', id);
      }
    }
  }

  lemma RecordedRow(acts: seq<Act>, t: Trace, n: nat, answer: Answer)
    requires Consistent(acts, t) && WritersPast(acts, t) && PointOf(t.world, n).Recording?
    ensures var t', id := Next(t, Advance(n, answer), |acts|), PointOf(t.world, n).update.id;
            id in t'.world.store.executions && RowTold(acts + [Advance(n, answer)], t', id)
  {
    hide PassesRisk, EventAfter, UpdateAfter, EventReported, UpdateReported, Claim;
    assert PointTold(acts, t, n, PointOf(t.world, n)) && RowTold(acts, t, PointOf(t.world, n).update.id);
  }

  lemma SendTold(acts: seq<Act>, t: Trace, n: nat, answer: Answer)
    requires Consistent(acts, t) && WritersPast(acts, t)
    requires PointOf(t.world, n).Sending?
    ensures var act := Advance(n, answer); var t' := Next(t, act, |acts|);
            Consistent(acts + [act], t') && WritersPast(acts + [act], t')
  {
    assert PointTold(acts, t, n, PointOf(t.world, n));
    hide Consistent;
    RowsUntouched(acts, Advance(n, answer), t, Next(t, Advance(n, answer), |acts|), n);
  }

  lemma AnswerTold(acts: seq<Act>, t: Trace, n: nat, answer: Answer)
    requires Consistent(acts, t) && WritersPast(acts, t)
    requires PointOf(t.world, n).Asking?
    ensures var act := Advance(n, answer); var t' := Next(t, act, |acts|);
            Consistent(acts + [act], t') && WritersPast(acts + [act], t')
  {
    hide WritersPast;
    var act := Advance(n, answer);
    var t' := Next(t, act, |acts|);
    assert PointTold(acts, t, n, PointOf(t.world, n));
    AskingMoves(acts, t, n, answer);
    hide Consistent, PointTold, Step, Claim;
    RowsUntouched(acts, act, t, t', n);
  }

  lemma AskingMoves(acts: seq<Act>, t: Trace, n: nat, answer: Answer)
    requires PointOf(t.world, n).Asking? && PointTold(acts, t, n, PointOf(t.world, n)) && WritersPast(acts, t)
    ensures var act := Advance(n, answer); var t' := Next(t, act, |acts|);
            && t'.world.store == t.world.store && t'.wrote == t.wrote && t'.since == t.since
            && (forall m | m != n :: PointOf(t'.world, m) == PointOf(t.world, m))
            && PointTold(acts + [act], t', n, PointOf(t'.world, n)) && Claim(acts + [act], t', n).None?
  {
  }

  /** A reconcile that finds an order finds a written row. */
  lemma SeekTold(acts: seq<Act>, t: Trace, n: nat, answer: Answer)
    requires Consistent(acts, t) && WritersPast(acts, t)
    requires PointOf(t.world, n).Seeking?
    ensures var act := Advance(n, answer); var t' := Next(t, act, |acts|);
            Consistent(acts + [act], t') && WritersPast(acts + [act], t')
  {
    assert PointTold(acts, t, n, PointOf(t.world, n));
    var id := PointOf(t.world, n).id;
    if KnowsOrder(t.world.store, id) {
      assert RowTold(acts, t, id);
    }
    hide Consistent;
    RowsUntouched(acts, Advance(n, answer), t, Next(t, Advance(n, answer), |acts|), n);
  }

  lemma ScreenTold(acts: seq<Act>, t: Trace, n: nat, answer: Answer)
    requires Consistent(acts, t) && WritersPast(acts, t)
    requires PointOf(t.world, n).Called?
    ensures var act := Advance(n, answer); var t' := Next(t, act, |acts|);
            Consistent(acts + [act], t') && WritersPast(acts + [act], t')
  {
    hide FreshInputs, Replay;
    assert PointTold(acts, t, n, PointOf(t.world, n));
    hide Consistent;
    RowsUntouched(acts, Advance(n, answer), t, Next(t, Advance(n, answer), |acts|), n);
  }

  lemma AdvanceTold(acts: seq<Act>, t: Trace, n: nat, answer: Answer)
    requires Consistent(acts, t) && WritersPast(acts, t)
    ensures var act := Advance(n, answer); var t' := Next(t, act, |acts|);
            Consistent(acts + [act], t') && WritersPast(acts + [act], t')
  {
    hide PassesRisk, EventAfter, EventReported, UpdateReported, UpdateAfter;
    var act := Advance(n, answer);
    var t' := Next(t, act, |acts|);
    assert PointTold(acts, t, n, PointOf(t.world, n));
    hide Consistent, WritersPast;
    match PointOf(t.world, n) {
      case Idle => NobodyMoves(acts, act, t, t');
      case Called(_) => ScreenTold(acts, t, n, answer);
      case Seeking(_, _) => SeekTold(acts, t, n, answer);
      case Sending(_, _) => SendTold(acts, t, n, answer);
      case Asking(_, _, _) => AnswerTold(acts, t, n, answer);
      case Recording(u, _) => RecordTold(acts, t, n, answer);
      case Claiming(call, row) =>
        if call.id !in t.world.store.executions {
          ClaimTold(acts, t, n, answer, call, row);
        } else {
          RowsUntouched(acts, act, t, t', n);
        }
      case _ => RowsUntouched(acts, act, t, t', n);
    }
  }

  lemma NextTold(acts: seq<Act>, t: Trace, act: Act)
    requires Consistent(acts, t) && WritersPast(acts, t)
    ensures Consistent(acts + [act], Next(t, act, |acts|)) && WritersPast(acts + [act], Next(t, act, |acts|))
  {
    hide Consistent, WritersPast;
    var t' := Next(t, act, |acts|);
    match act {
      case Begin(_, _) => CallTold(acts, t, act);
      case Ask(_, _, _) => CallTold(acts, t, act);
      case Advance(n, answer) => AdvanceTold(acts, t, n, answer);
      case Crash(n) => RowsUntouched(acts, act, t, t', n);
      case Review(_, _, _, _, _, _) =>
        ReviewLeaves(t.world, act);
        NobodyMoves(acts, act, t, t');
      case _ => NobodyMoves(acts, act, t, t');
    }
  }

  lemma {:induction false} AlwaysConsistent(acts: seq<Act>)
    ensures Consistent(acts, Told(acts)) && WritersPast(acts, Told(acts))
  {
    if acts == [] {
    } else {
      var n := |acts| - 1;
      hide Consistent, WritersPast, Next;
      AlwaysConsistent(acts[..n]);
      NextTold(acts[..n], Told(acts[..n]), acts[n]);
      assert acts == acts[..n] + [acts[n]];
    }
  }

  // ---------- the theorems ----------

  /** Process `n` is about to record a live state of this proposal for a reconcile that read the clock
      before, and earlier than, the execute or reconcile of it whose reading is recorded: the two overlap. */
  ghost predicate Overtaken(acts: seq<Act>, n: nat, id: string) {
    var t := Told(acts);
    && RecordsLive(t.world, Advance(n, Uncertain)) && PointOf(t.world, n).update.id == id
    && n in t.since && id in t.wrote
    && (var first, second := t.since[n], t.wrote[id];
        && first < second < |acts|
        && acts[first].Ask? && acts[first].process == n && acts[first].id == id && Calls(acts[second], id)
        && acts[first].now < Reading(acts[second]).value)
  }

  /** UNDER A CLOCK THAT NEVER RUNS BACK, over every interleaving with crashes, a step moves a proposal's
      submission time back exactly when it ends a reconcile that an execute or another reconcile of the
      same proposal overtook: it read the clock first, and earlier, and records last. */
  lemma MovesBackIff(acts: seq<Act>, act: Act, id: string)
    requires InOrder(acts)
    ensures var w := Steps(START, acts);
            id in w.store.executions && w.store.executions[id].submittedAt.Some? ==>
              var w' := Step(w, act);
              && id in w'.store.executions && w'.store.executions[id].submittedAt.Some?
              && (w'.store.executions[id].submittedAt.value < w.store.executions[id].submittedAt.value
                  <==> act.Advance? && Overtaken(acts, act.process, id))
  {
    hide Step;
    var t := Told(acts);
    ToldWorld(acts);
    AlwaysConsistent(acts);
    var w := t.world;
    if id in w.store.executions && w.store.executions[id].submittedAt.Some? {
      OnlyRecordingMoves(w, act, id);
      assert RowTold(acts, t, id);
      if act.Advance? && PointOf(w, act.process).Recording? && PointOf(w, act.process).update.id == id {
        assert PointTold(acts, t, act.process, PointOf(w, act.process));
      }
    }
  }

  // ---------- nothing called while a reconcile runs ----------

  /** What a process is doing, from reading its clock to recording the broker's answer. */
  datatype Role = Neither | Executing(id: string) | Reconciling(id: string)

  function RoleOf(w: World, n: nat): Role {
    match PointOf(w, n)
    case Called(call) => Executing(call.id)
    case Weighing(call, _) => Executing(call.id)
    case Claiming(call, _) => Executing(call.id)
    case Sending(call, _) => Executing(call.id)
    case Seeking(id, _) => Reconciling(id)
    case Asking(id, _, _) => Reconciling(id)
    case Recording(u, kind) => if ByReconcile(kind) then Reconciling(u.id) else Executing(u.id)
    case _ => Neither
  }

  /** Neither an execute nor a reconcile of a proposal is called while another process reconciles it. */
  ghost predicate NoOverlap(acts: seq<Act>) {
    forall k | 0 <= k < |acts| :: CallsApart(Steps(START, acts[..k]), acts[k])
  }

  ghost predicate CallsApart(w: World, act: Act) {
    Begins(w, act) ==> forall m: nat | m != act.process :: RoleOf(w, m) != Reconciling(CalledId(act))
  }

  function CalledId(act: Act): string
    requires act.Begin? || act.Ask?
  {
    if act.Begin? then act.call.id else act.id
  }

  /** Of two operations on one proposal, the reconcile was called last; the recorded time was read before. */
  ghost predicate OneByOne(t: Trace) {
    && (forall m, n | RoleOf(t.world, m).Reconciling? && RoleOf(t.world, m) == RoleOf(t.world, n) :: m == n)
    && (forall n :: InFront(t, n))
    && (forall m, n :: ExecuteFirst(t, m, n))
  }

  predicate InFront(t: Trace, n: nat) {
    var role := RoleOf(t.world, n);
    role.Reconciling? && role.id in t.wrote && n in t.since ==> t.wrote[role.id] < t.since[n]
  }

  predicate ExecuteFirst(t: Trace, m: nat, n: nat) {
    var first, second := RoleOf(t.world, m), RoleOf(t.world, n);
    first.Executing? && second == Reconciling(first.id) && m in t.since && n in t.since ==> t.since[m] < t.since[n]
  }

  /** A process takes up a role by being called and keeps it until it records or stops. */
  lemma RoleMoves(w: World, act: Act, m: nat)
    ensures var r, r' := RoleOf(w, m), RoleOf(Step(w, act), m);
            if Begins(w, act) && act.process == m
            then r' == (if act.Begin? then Executing(act.call.id) else Reconciling(act.id))
            else r' == Neither || r' == r
  {
    hide PassesRisk, UpdateAfter, FreshInputs, Replay, Decided, Updated, Logged, Retired, ClaimInserted;
    match act {
      case Review(_, _, _, _, _, _) => ReviewLeaves(w, act);
      case Advance(n, answer) => AdvancedRole(w, n, answer, m);
      case _ =>
    }
  }

  lemma AdvancedRole(w: World, n: nat, answer: Answer, m: nat)
    ensures var r' := RoleOf(Step(w, Advance(n, answer)), m); r' == Neither || r' == RoleOf(w, m)
  {
    hide PassesRisk, FreshInputs, Replay, Updated, Logged, Retired, ClaimInserted;
    if m != n {
      assert PointOf(Step(w, Advance(n, answer)), m) == PointOf(w, m);
    } else {
      match PointOf(w, n) {
        case Sending(call, row) =>
          AnsweredFor(call, row, answer);
          hide UpdateAfter, EventAfter;
        case _ =>
      }
    }
  }

  lemma AnsweredFor(call: Call, row: Proposal, answer: Answer)
    ensures UpdateAfter(call.id, row, call.now, answer).id == call.id && !ByReconcile(EventAfter(row, answer))
  {
  }

  /** The recorded time changes only by a record, to the reading of the process that ends its role. */
  lemma WroteMoves(t: Trace, act: Act, k: nat, id: string)
    ensures var t' := Next(t, act, k);
            || ((id in t'.wrote <==> id in t.wrote) && (id in t.wrote ==> t'.wrote[id] == t.wrote[id]))
            || (RecordsLive(t.world, act) && act.process in t.since && id in t'.wrote
                && t'.wrote[id] == t.since[act.process]
                && (RoleOf(t.world, act.process) == Executing(id) || RoleOf(t.world, act.process) == Reconciling(id))
                && RoleOf(t'.world, act.process) == Neither)
  {
    hide Step;
    if RecordsLive(t.world, act) {
      RecordingLeaves(t.world, act);
    }
  }

  lemma RecordingLeaves(w: World, act: Act)
    requires RecordsLive(w, act)
    ensures PointOf(Step(w, act), act.process).Logging?
  {
  }

  lemma RoleSince(acts: seq<Act>, t: Trace, m: nat)
    requires Consistent(acts, t) && RoleOf(t.world, m) != Neither
    ensures m in t.since && t.since[m] < |acts|
  {
    assert PointTold(acts, t, m, PointOf(t.world, m));
  }

  lemma NextInFront(acts: seq<Act>, t: Trace, act: Act, n: nat)
    requires Consistent(acts, t) && WritersPast(acts, t) && OneByOne(t)
    ensures InFront(Next(t, act, |acts|), n)
  {
    var t' := Next(t, act, |acts|);
    RoleMoves(t.world, act, n);
    var role := RoleOf(t'.world, n);
    if role.Reconciling? {
      WroteMoves(t, act, |acts|, role.id);
      if !(Begins(t.world, act) && act.process == n) {
        RoleSince(acts, t, n);
        assert InFront(t, n);
        if RecordsLive(t.world, act) {
          RoleSince(acts, t, act.process);
          assert ExecuteFirst(t, act.process, n);
        }
      }
    }
  }

  lemma NextOneByOne(acts: seq<Act>, t: Trace, act: Act)
    requires Consistent(acts, t) && WritersPast(acts, t) && OneByOne(t) && CallsApart(t.world, act)
    ensures OneByOne(Next(t, act, |acts|))
  {
    hide Step, RoleOf, Consistent, WritersPast;
    var t' := Next(t, act, |acts|);
    forall n
      ensures InFront(t', n)
    {
      NextInFront(acts, t, act, n);
    }
    forall m, n | RoleOf(t'.world, m).Reconciling? && RoleOf(t'.world, m) == RoleOf(t'.world, n)
      ensures m == n
    {
      RoleMoves(t.world, act, m);
      RoleMoves(t.world, act, n);
    }
    forall m, n
      ensures ExecuteFirst(t', m, n)
    {
      NextExecuteFirst(acts, t, act, m, n);
    }
  }

  lemma NextExecuteFirst(acts: seq<Act>, t: Trace, act: Act, m: nat, n: nat)
    requires Consistent(acts, t) && WritersPast(acts, t) && OneByOne(t) && CallsApart(t.world, act)
    ensures ExecuteFirst(Next(t, act, |acts|), m, n)
  {
    hide Step, RoleOf, Consistent, WritersPast;
    var t' := Next(t, act, |acts|);
    RoleMoves(t.world, act, m);
    RoleMoves(t.world, act, n);
    var first, second := RoleOf(t'.world, m), RoleOf(t'.world, n);
    if first.Executing? && second == Reconciling(first.id) {
      if RoleOf(t.world, m) != Neither {
        RoleSince(acts, t, m);
      }
      assert ExecuteFirst(t, m, n);
    }
  }

  lemma NoOverlapInit(acts: seq<Act>, k: nat)
    requires k <= |acts| && NoOverlap(acts)
    ensures NoOverlap(acts[..k])
  {
    hide CallsApart;
    forall i | 0 <= i < k
      ensures CallsApart(Steps(START, acts[..k][..i]), acts[..k][i])
    {
      assert acts[..k][..i] == acts[..i];
    }
  }

  lemma {:induction false} AlwaysOneByOne(acts: seq<Act>)
    requires NoOverlap(acts)
    ensures OneByOne(Told(acts))
  {
    if acts != [] {
      var n := |acts| - 1;
      hide Consistent, WritersPast, Next, OneByOne, CallsApart;
      NoOverlapInit(acts, n);
      AlwaysOneByOne(acts[..n]);
      AlwaysConsistent(acts[..n]);
      ToldWorld(acts[..n]);
      NextOneByOne(acts[..n], Told(acts[..n]), acts[n]);
      assert acts == acts[..n] + [acts[n]];
    }
  }

  /** One step after such a run. */
  lemma StepForward(acts: seq<Act>, act: Act)
    requires InOrder(acts) && NoOverlap(acts)
    ensures Forward(Steps(START, acts).store, Step(Steps(START, acts), act).store)
  {
    hide Step;
    AlwaysOneByOne(acts);
    ToldWorld(acts);
    var w := Steps(START, acts);
    forall id | id in w.store.executions && w.store.executions[id].submittedAt.Some?
      ensures id in Step(w, act).store.executions && Step(w, act).store.executions[id].submittedAt.Some?
      ensures w.store.executions[id].submittedAt.value <= Step(w, act).store.executions[id].submittedAt.value
    {
      MovesBackIff(acts, act, id);
      if act.Advance? {
        OvertakenNotInFront(acts, act.process, id);
      }
    }
  }

  lemma OvertakenNotInFront(acts: seq<Act>, n: nat, id: string)
    requires OneByOne(Told(acts))
    ensures !Overtaken(acts, n, id)
  {
    AlwaysConsistent(acts);
    var t := Told(acts);
    assert InFront(t, n) && PointTold(acts, t, n, PointOf(t.world, n));
  }

  /** WITHOUT OVERLAP THE TIMES NEVER MOVE BACK: under a clock that never runs back, if neither an execute nor
      a reconcile of a proposal is called while another process reconciles it, no submission time
      ever moves back. */
  lemma {:induction false} NeverBack(acts: seq<Act>, k: nat)
    requires k <= |acts| && InOrder(acts) && NoOverlap(acts)
    ensures Forward(Steps(START, acts[..k]).store, Steps(START, acts).store)
    decreases |acts|
  {
    if k == |acts| {
      assert acts[..k] == acts;
    } else {
      var n := |acts| - 1;
      hide Step, NoOverlap;
      NoOverlapInit(acts, n);
      NeverBack(acts[..n], k);
      assert acts[..n][..k] == acts[..k];
      StepForward(acts[..n], acts[n]);
      StepsSnoc(START, acts[..n], acts[n]);
      assert acts == acts[..n] + [acts[n]];
    }
  }
}
