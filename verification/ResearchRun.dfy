/** The research-day loops (src/predict_agent/research_run.py:543-731): due updates first, then new
    entries, one paid session after another, until the queue ends or a failure stops the run. What a
    session, the eligibility re-check and the book fetch answer is read from the visit's script. */
module ResearchRun {
  import opened Prelude
  import opened Time
  import Sums
  import opened Schema
  import opened Cash
  import opened Cohorts
  import opened Forecasts
  import opened Budget
  import opened Spending

  datatype Code =
    | SdkError | Timeout
    | ToolsetMismatch | HookError | CleanupTimeout
    | BaselineUnavailable
    | OtherCode(name: string)

  predicate Systemic(code: Code) { code.ToolsetMismatch? || code.HookError? || code.CleanupTimeout? }
  predicate Repeated(code: Code) { code.SdkError? || code.Timeout? }

  function CodeText(code: Code): (s: string)
    ensures s != ""
  {
    match code
    case SdkError => "SDK_ERROR"
    case Timeout => "TIMEOUT"
    case ToolsetMismatch => "TOOLSET_MISMATCH"
    case HookError => "HOOK_ERROR"
    case CleanupTimeout => "CLEANUP_TIMEOUT"
    case BaselineUnavailable => "BASELINE_UNAVAILABLE"
    case OtherCode(name) => if name == "" then "UNKNOWN" else name
  }

  /** The code an attempt fails with, as it is recorded; a session that failed without one is UNKNOWN. */
  lemma CodesAsRecorded(name: string)
    ensures CodeText(SdkError) == "SDK_ERROR" && CodeText(Timeout) == "TIMEOUT"
    ensures CodeText(ToolsetMismatch) == "TOOLSET_MISMATCH" && CodeText(HookError) == "HOOK_ERROR"
    ensures CodeText(CleanupTimeout) == "CLEANUP_TIMEOUT" && CodeText(BaselineUnavailable) == "BASELINE_UNAVAILABLE"
    ensures CodeText(OtherCode(name)) == name || (name == "" && CodeText(OtherCode(name)) == "UNKNOWN")
  {
  }

  const SDK_ERROR_STREAK := 2
  const ANY_FAILURE_STREAK := 3

  class FailureStreak {
    var count: nat
    var anyCount: nat

    constructor ()
      ensures count == 0 && anyCount == 0
    {
      count, anyCount := 0, 0;
    }

    /** Count one failure; true when it should stop the run. */
    method Failed(code: Code) returns (stop: bool)
      modifies this
      ensures count == if code == SdkError || code == Timeout then old(count) + 1 else 0
      ensures anyCount == old(anyCount) + 1
      ensures stop <==> || code == ToolsetMismatch || code == HookError || code == CleanupTimeout
                        || count >= 2 || anyCount >= 3
    {
      count := if Repeated(code) then count + 1 else 0;
      anyCount := anyCount + 1;
      stop := Systemic(code) || count >= SDK_ERROR_STREAK || anyCount >= ANY_FAILURE_STREAK;
    }

    method Succeeded()
      modifies this
      ensures count == 0 && anyCount == 0
    {
      count, anyCount := 0, 0;
    }
  }

  datatype SessionResult =
    | FailedSession(code: Code, cost: real, at: int)
    | Forecasted(cost: real, at: int, outage: bool)

  /** One queued market and what the outside world will answer about it. */
  datatype Visit = Visit(condition: string, eligible: bool, checkedAt: int, startedAt: int, result: SessionResult)

  /** What became of a queued market. */
  datatype Disposition =
    | NoLongerEligible
    | Skipped(reason: BudgetRefusal)
    | AbortedAfter(code: Code)
    | SessionFailed(code: Code)
    | Recorded

  /** The loops' variables: the tables, the streak, the sticky budget refusal of the entry loop, the
      code the run was aborted with, and one disposition per market visited. */
  datatype Progress = Progress(
    t: Tables, count: nat, anyCount: nat, stop: Option<BudgetRefusal>, aborted: Option<Code>, log: seq<Disposition>)

  function SessionOf(cohort: CohortId, kind: Kind, v: Visit): Session {
    Session(cohort, v.condition, kind, v.checkedAt, v.startedAt,
            match v.result
            case FailedSession(code, cost, at) => Fails(CodeText(code), cost, at)
            case Forecasted(cost, at, _) => Succeeds(cost, at))
  }

  function AfterFailure(g: Progress, code: Code): Progress {
    var count, anyCount := if Repeated(code) then g.count + 1 else 0, g.anyCount + 1;
    g.(count := count, anyCount := anyCount,
       aborted := if Systemic(code) || count >= SDK_ERROR_STREAK || anyCount >= ANY_FAILURE_STREAK then Some(code)
                  else None,
       log := g.log + [SessionFailed(code)])
  }

  function AfterForecast(g: Progress, outage: bool): Progress {
    g.(count := 0, anyCount := 0, aborted := if outage then Some(BaselineUnavailable) else None,
       log := g.log + [Recorded])
  }

  /** The budget refusal of one visit; an entry refusal lasts for the rest of the run. */
  ghost function VisitRefusal(g: Progress, config: Config, kind: Kind, v: Visit): Option<BudgetRefusal> {
    if kind == Entry && g.stop.Some? then g.stop else RefusalOf(g.t, config, kind, v.checkedAt)
  }

  ghost function Visited(g: Progress, config: Config, cohort: CohortId, kind: Kind, v: Visit): Progress {
    if g.aborted.Some? then g.(log := g.log + [AbortedAfter(g.aborted.value)])
    else if !v.eligible then g.(log := g.log + [NoLongerEligible])
    else
      var refusal := VisitRefusal(g, config, kind, v);
      var g' := if kind == Entry then g.(stop := refusal) else g;
      if refusal.Some? then g'.(log := g.log + [Skipped(refusal.value)])
      else
        var ran := g'.(t := Researched(g.t, SessionOf(cohort, kind, v)));
        match v.result
        case FailedSession(code, _, _) => AfterFailure(ran, code)
        case Forecasted(_, _, outage) => AfterForecast(ran, outage)
  }

  ghost function VisitedAll(g: Progress, config: Config, cohort: CohortId, kind: Kind, queue: seq<Visit>): Progress
    decreases |queue|
  {
    if queue == [] then g else VisitedAll(Visited(g, config, cohort, kind, queue[0]), config, cohort, kind, queue[1..])
  }

  /** Updates first, then entries, with one streak over both. */
  ghost function DayRun(t: Tables, config: Config, cohort: CohortId, updates: seq<Visit>, entries: seq<Visit>)
    : Progress
  {
    VisitedAll(VisitedAll(Progress(t, 0, 0, None, None, []), config, cohort, Update, updates), config, cohort, Entry,
               entries)
  }

  lemma {:induction false} AbortedRest(g: Progress, config: Config, cohort: CohortId, kind: Kind, queue: seq<Visit>)
    requires g.aborted.Some?
    ensures VisitedAll(g, config, cohort, kind, queue) ==
            g.(log := g.log + seq(|queue|, i => AbortedAfter(g.aborted.value)))
    decreases |queue|
  {
    if queue == [] {
      assert g.log + seq(0, i => AbortedAfter(g.aborted.value)) == g.log;
    } else {
      var g' := Visited(g, config, cohort, kind, queue[0]);
      AbortedRest(g', config, cohort, kind, queue[1..]);
      assert g.log + seq(|queue|, i => AbortedAfter(g.aborted.value)) ==
             g'.log + seq(|queue[1..]|, i => AbortedAfter(g.aborted.value));
    }
  }

  // ---------- the loops ----------

  /** Open the attempt, run the session, close the attempt with what it cost. */
  method ResearchMarket(conn: Connection, cohort: CohortId, kind: Kind, v: Visit)
    requires CohortActive(conn.db, cohort)
    requires v.result.cost >= 0.0
    modifies conn
    ensures conn.db == Researched(old(conn.db), SessionOf(cohort, kind, v))
  {
    ghost var t := conn.db;
    ResearchedFinishes(t, SessionOf(cohort, kind, v));
    var started := StartAttempt(conn, cohort, v.condition, kind, v.startedAt);
    var attempt := started.value;
    match v.result {
      case FailedSession(code, cost, at) =>
        var failed := FailAttempt(conn, attempt, cost, CodeText(code), at);
      case Forecasted(cost, at, _) =>
        var done := conn.db.attempts[attempt].(status := Succeeded(at, cost));
        conn.db := conn.db.(attempts := conn.db.attempts[attempt := done]);
    }
  }

  lemma VisitNone(g: Progress, config: Config, cohort: CohortId, kind: Kind, queue: seq<Visit>)
    ensures VisitedAll(g, config, cohort, kind, queue[|queue|..]) == g
  {
  }

  lemma VisitNext(g: Progress, config: Config, cohort: CohortId, kind: Kind, queue: seq<Visit>, i: nat)
    requires i < |queue|
    ensures VisitedAll(g, config, cohort, kind, queue[i..]) ==
            VisitedAll(Visited(g, config, cohort, kind, queue[i]), config, cohort, kind, queue[i + 1..])
  {
    assert queue[i..][0] == queue[i] && queue[i..][1..] == queue[i + 1..];
  }

  /** Each due update; the loop returns the code that stopped the run, after refusing what is left. */
  method RunUpdates(conn: Connection, streak: FailureStreak, config: Config, cohort: CohortId, due: seq<Visit>)
    returns (aborted: Option<Code>, log: seq<Disposition>)
    requires CohortActive(conn.db, cohort) && streak.count == 0 && streak.anyCount == 0
    requires forall v | v in due :: v.result.cost >= 0.0
    modifies conn, streak
    ensures CohortActive(conn.db, cohort)
    ensures Progress(conn.db, streak.count, streak.anyCount, None, aborted, log) ==
            VisitedAll(Progress(old(conn.db), 0, 0, None, None, []), config, cohort, Update, due)
  {
    hide Researched, SessionOf, UsageOn, DayOf, VisitedAll;
    ghost var whole := VisitedAll(Progress(conn.db, 0, 0, None, None, []), config, cohort, Update, due);
    aborted, log := None, [];
    var i := 0;
    assert due[0..] == due;
    while i < |due|
      invariant 0 <= i <= |due| && aborted == None
      invariant CohortActive(conn.db, cohort)
      invariant VisitedAll(Progress(conn.db, streak.count, streak.anyCount, None, None, log), config, cohort, Update,
                           due[i..]) == whole
    {
      var v := due[i];
      VisitNext(Progress(conn.db, streak.count, streak.anyCount, None, None, log), config, cohort, Update, due, i);
      i := i + 1;
      if !v.eligible {
        log := log + [NoLongerEligible];
        continue;
      }
      var usage := ReadDayUsage(conn, v.checkedAt, config.perForecast);
      if usage.spent + config.perForecast > config.daily {
        log := log + [Skipped(OverBudget)];
        continue;
      }
      ResearchMarket(conn, cohort, Update, v);
      match v.result {
        case FailedSession(code, _, _) =>
          var stops := streak.Failed(code);
          log := log + [SessionFailed(code)];
          if stops {
            aborted := Some(code);
          }
        case Forecasted(_, _, outage) =>
          streak.Succeeded();
          log := log + [Recorded];
          if outage {
            aborted := Some(BaselineUnavailable);
          }
      }
      if aborted.Some? {
        AbortedRest(Progress(conn.db, streak.count, streak.anyCount, None, aborted, log), config, cohort, Update,
                    due[i..]);
        log := log + seq(|due| - i, k => AbortedAfter(aborted.value));
        return;
      }
    }
    VisitNone(Progress(conn.db, streak.count, streak.anyCount, None, None, log), config, cohort, Update, due);
  }

  /** The entry loop of `run_research_day`, after the updates. */
  method RunEntries(conn: Connection, streak: FailureStreak, config: Config, cohort: CohortId, pending: seq<Visit>,
                    abortedBefore: Option<Code>, before: seq<Disposition>)
    returns (aborted: Option<Code>, stop: Option<BudgetRefusal>, log: seq<Disposition>)
    requires CohortActive(conn.db, cohort)
    requires forall v | v in pending :: v.result.cost >= 0.0
    modifies conn, streak
    ensures CohortActive(conn.db, cohort)
    ensures Progress(conn.db, streak.count, streak.anyCount, stop, aborted, log) ==
            VisitedAll(Progress(old(conn.db), old(streak.count), old(streak.anyCount), None, abortedBefore, before),
                       config, cohort, Entry, pending)
  {
    hide Researched, SessionOf, UsageOn, DayOf, BudgetRefusalOf, VisitedAll;
    aborted, stop, log := abortedBefore, None, before;
    ghost var whole := VisitedAll(Progress(conn.db, streak.count, streak.anyCount, stop, aborted, log), config, cohort,
                                  Entry, pending);
    var i := 0;
    assert pending[0..] == pending;
    while i < |pending|
      invariant 0 <= i <= |pending|
      invariant CohortActive(conn.db, cohort)
      invariant VisitedAll(Progress(conn.db, streak.count, streak.anyCount, stop, aborted, log), config, cohort, Entry,
                           pending[i..]) == whole
    {
      var v := pending[i];
      VisitNext(Progress(conn.db, streak.count, streak.anyCount, stop, aborted, log), config, cohort, Entry, pending,
                i);
      i := i + 1;
      if aborted.Some? {
        log := log + [AbortedAfter(aborted.value)];
        continue;
      }
      if !v.eligible {
        log := log + [NoLongerEligible];
        continue;
      }
      if stop.None? {
        var usage := ReadDayUsage(conn, v.checkedAt, config.perForecast);
        stop := BudgetRefusalOf(usage, config.daily, config.perForecast, config.maxEntries);
      }
      if stop.Some? {
        log := log + [Skipped(stop.value)];
        continue;
      }
      ResearchMarket(conn, cohort, Entry, v);
      match v.result {
        case FailedSession(code, _, _) =>
          log := log + [SessionFailed(code)];
          var stops := streak.Failed(code);
          if stops {
            aborted := Some(code);
          }
        case Forecasted(_, _, outage) =>
          streak.Succeeded();
          log := log + [Recorded];
          if outage {
            aborted := Some(BaselineUnavailable);
          }
      }
    }
    VisitNone(Progress(conn.db, streak.count, streak.anyCount, stop, aborted, log), config, cohort, Entry, pending);
  }

  /** The day's run once its cohort is ensured: interrupted attempts are closed first, and with a stale
      discovery nothing is researched. */
  ghost function ResearchDay(t: Tables, config: Config, cohort: CohortId, now: int, stale: bool,
                             updates: seq<Visit>, entries: seq<Visit>): Progress
  {
    DayRun(Recovered(t, Fallback(t.cohorts, config.perForecast), now), config, cohort,
           if stale then [] else updates, if stale then [] else entries)
  }

  /** `stale` is whether the latest discovery run is older than a day. Nothing but the cohort's error is
      raised. */
  method RunResearchDay(conn: Connection, config: Config, identity: Identity, bankroll: real, now: int, stale: bool,
                        due: seq<Visit>, pending: seq<Visit>)
    returns (result: Result<(), LedgerError>, aborted: Option<Code>, log: seq<Disposition>)
    requires config.perForecast >= 0.0
    requires forall v | v in due || v in pending :: v.result.cost >= 0.0
    modifies conn
    ensures match CohortEnsured(old(conn.db), identity, bankroll, now)
            case Err(error) => result == Err(error) && conn.db == old(conn.db) && aborted == None && log == []
            case Ok(t) =>
              var g := ResearchDay(t, config, CohortHash(identity), now, stale, due, pending);
              result == Ok(()) && conn.db == g.t && aborted == g.aborted && log == g.log
  {
    hide CohortEnsured, DayRun, Recovered;
    var ensured := EnsureCohort(conn, identity, bankroll, now);
    if ensured.Err? {
      return Err(ensured.error), None, [];
    }
    var cohort := ensured.value;
    EnsuredActive(old(conn.db), identity, bankroll, now);
    RecoveredCohorts(conn.db, Fallback(conn.db.cohorts, config.perForecast), now);
    var recovered := RecoverInterruptedAttempts(conn, config.perForecast, now);
    aborted, log := RunLoops(conn, config, cohort, if stale then [] else due, if stale then [] else pending);
    result := Ok(());
  }

  method RunLoops(conn: Connection, config: Config, cohort: CohortId, due: seq<Visit>, pending: seq<Visit>)
    returns (aborted: Option<Code>, log: seq<Disposition>)
    requires CohortActive(conn.db, cohort)
    requires forall v | v in due || v in pending :: v.result.cost >= 0.0
    modifies conn
    ensures var g := DayRun(old(conn.db), config, cohort, due, pending);
            conn.db == g.t && aborted == g.aborted && log == g.log
  {
    var streak := new FailureStreak();
    aborted, log := RunUpdates(conn, streak, config, cohort, due);
    var stop;
    aborted, stop, log := RunEntries(conn, streak, config, cohort, pending, aborted, log);
  }

  lemma {:induction false} FundedCohorts(t: Tables, c: CohortId, variants: seq<Variant>, bankroll: real, now: int)
    requires Funded(t, c, variants, bankroll, now).Ok?
    ensures var t' := Funded(t, c, variants, bankroll, now).value; t'.cohorts == t.cohorts && t'.attempts == t.attempts
    decreases |variants|
  {
    if variants != [] {
      var inserted := PortfolioInserted(t, c, variants[0], bankroll);
      var paid := EntryAppended(inserted, PortfolioHash(c, variants[0].name), Funding, bankroll, None, now).value;
      FundedCohorts(paid, c, variants[1..], bankroll, now);
    }
  }

  /** Ensuring a cohort leaves it active, loses no cohort, changes no identity and touches no attempt. */
  lemma EnsuredActive(t: Tables, identity: Identity, bankroll: real, now: int)
    requires CohortEnsured(t, identity, bankroll, now).Ok?
    ensures var t' := CohortEnsured(t, identity, bankroll, now).value;
            && CohortActive(t', CohortHash(identity)) && t'.attempts == t.attempts
            && (forall c | c in t.cohorts :: c in t'.cohorts && t'.cohorts[c].identity == t.cohorts[c].identity)
            && (CohortHash(identity) !in t.cohorts ==> t'.cohorts[CohortHash(identity)].identity == identity)
  {
    hide Funded, ValidIdentity, ArtifactsStored;
    if CohortHash(identity) !in t.cohorts {
      FundedCohorts(CohortInserted(t, identity, bankroll), CohortHash(identity), identity.portfolios, bankroll, now);
    }
  }

  lemma RecoveredCohorts(t: Tables, fallback: real, now: int)
    ensures Recovered(t, fallback, now).cohorts == t.cohorts
  {
  }

  // ---------- what the run guarantees ----------

  /** A queued market with its loop. */
  datatype Queued = Queued(kind: Kind, visit: Visit)

  function Queue(updates: seq<Visit>, entries: seq<Visit>): (queue: seq<Queued>)
    ensures |queue| == |updates| + |entries|
  {
    seq(|updates| + |entries|, i requires 0 <= i < |updates| + |entries| =>
      if i < |updates| then Queued(Update, updates[i]) else Queued(Entry, entries[i - |updates|]))
  }

  predicate IsSession(d: Disposition) { d.SessionFailed? || d.Recorded? }

  /** Failed sessions since the last successful one; refusals in between do not interrupt them. */
  function FailureTail(log: seq<Disposition>): nat {
    if log == [] then 0
    else match log[|log| - 1]
      case SessionFailed(_) => FailureTail(log[..|log| - 1]) + 1
      case Recorded => 0
      case _ => FailureTail(log[..|log| - 1])
  }

  /** Sessions that failed with SDK_ERROR or TIMEOUT since the last session that did not. */
  function RepeatTail(log: seq<Disposition>): nat {
    if log == [] then 0
    else match log[|log| - 1]
      case SessionFailed(code) => if Repeated(code) then RepeatTail(log[..|log| - 1]) + 1 else 0
      case Recorded => 0
      case _ => RepeatTail(log[..|log| - 1])
  }

  /** The code with which the last market of this log stopped the run, if it did: a systemic failure, the
      second SDK error or timeout in a row, the third failure in a row, or a book outage after a forecast. */
  function StopCode(queue: seq<Queued>, log: seq<Disposition>): Option<Code>
    requires 0 < |log| <= |queue|
  {
    match log[|log| - 1]
    case SessionFailed(code) =>
      if Systemic(code) || RepeatTail(log) >= SDK_ERROR_STREAK || FailureTail(log) >= ANY_FAILURE_STREAK
      then Some(code) else None
    case Recorded =>
      var result := queue[|log| - 1].visit.result;
      if result.Forecasted? && result.outage then Some(BaselineUnavailable) else None
    case _ => None
  }

  /** Some market of this log stopped the run with this code. */
  ghost predicate StoppedWith(queue: seq<Queued>, log: seq<Disposition>, code: Code)
    requires |log| <= |queue|
  {
    exists n | 0 < n <= |log| :: StopCode(queue, log[..n]) == Some(code)
  }

  ghost predicate Stopped(queue: seq<Queued>, log: seq<Disposition>)
    requires |log| <= |queue|
  {
    exists n | 0 < n <= |log| :: StopCode(queue, log[..n]).Some?
  }

  /** The tables as the sessions of this log left them. */
  function TablesAfter(t: Tables, cohort: CohortId, queue: seq<Queued>, log: seq<Disposition>): Tables
    requires |log| <= |queue|
    decreases |log|
  {
    if log == [] then t
    else
      var n := |log| - 1;
      var before := TablesAfter(t, cohort, queue, log[..n]);
      if IsSession(log[n]) then Researched(before, SessionOf(cohort, queue[n].kind, queue[n].visit)) else before
  }

  /** The reason the last skipped entry of this log was skipped for. */
  function EntrySkip(queue: seq<Queued>, log: seq<Disposition>): Option<BudgetRefusal>
    requires |log| <= |queue|
    decreases |log|
  {
    if log == [] then None
    else if queue[|log| - 1].kind == Entry && log[|log| - 1].Skipped? then Some(log[|log| - 1].reason)
    else EntrySkip(queue, log[..|log| - 1])
  }

  /** The budget refusal that awaits the next market: for an entry the one an earlier entry met, if any;
      otherwise the day's check on the tables so far. */
  ghost function NextRefusal(t: Tables, config: Config, cohort: CohortId, queue: seq<Queued>, log: seq<Disposition>)
    : Option<BudgetRefusal>
    requires |log| < |queue|
  {
    var next := queue[|log|];
    if next.kind == Entry && EntrySkip(queue, log).Some? then EntrySkip(queue, log)
    else RefusalOf(TablesAfter(t, cohort, queue, log), config, next.kind, next.visit.checkedAt)
  }

  /** Exactly which disposition follows this log. */
  ghost predicate Follows(t: Tables, config: Config, cohort: CohortId, queue: seq<Queued>, log: seq<Disposition>,
                          d: Disposition)
    requires |log| < |queue|
  {
    var v := queue[|log|].visit;
    var researchable := !Stopped(queue, log) && v.eligible;
    var refusal := NextRefusal(t, config, cohort, queue, log);
    && (forall code :: d == AbortedAfter(code) <==> StoppedWith(queue, log, code))
    && (d == NoLongerEligible <==> !Stopped(queue, log) && !v.eligible)
    && (forall reason :: d == Skipped(reason) <==> researchable && refusal == Some(reason))
    && (forall code :: d == SessionFailed(code) <==>
          researchable && refusal.None? && v.result.FailedSession? && v.result.code == code)
    && (d == Recorded <==> researchable && refusal.None? && v.result.Forecasted?)
  }

  ghost predicate Explained(t: Tables, config: Config, cohort: CohortId, queue: seq<Queued>, log: seq<Disposition>)
    requires |log| <= |queue|
  {
    forall i | 0 <= i < |log| :: Follows(t, config, cohort, queue, log[..i], log[i])
  }

  /** What the loops' variables hold after this log. */
  ghost predicate Remembers(g: Progress, t: Tables, cohort: CohortId, queue: seq<Queued>)
    requires |g.log| <= |queue|
  {
    && g.t == TablesAfter(t, cohort, queue, g.log)
    && g.anyCount == FailureTail(g.log) && g.count == RepeatTail(g.log)
    && g.stop == EntrySkip(queue, g.log)
    && (g.aborted.None? <==> !Stopped(queue, g.log))
    && (forall code :: g.aborted == Some(code) <==> StoppedWith(queue, g.log, code))
  }

  lemma PrefixSnoc(log: seq<Disposition>, d: Disposition, n: nat)
    requires n <= |log| + 1
    ensures (log + [d])[..n] == if n <= |log| then log[..n] else log + [d]
  {
  }

  lemma StoppedSnoc(queue: seq<Queued>, log: seq<Disposition>, d: Disposition)
    requires |log| < |queue|
    ensures Stopped(queue, log + [d]) <==> Stopped(queue, log) || StopCode(queue, log + [d]).Some?
    ensures forall code :: StoppedWith(queue, log + [d], code) <==>
              StoppedWith(queue, log, code) || StopCode(queue, log + [d]) == Some(code)
  {
    hide StopCode;
    var all := log + [d];
    forall n | 0 < n <= |all|
      ensures all[..n] == if n <= |log| then log[..n] else all
    {
      PrefixSnoc(log, d, n);
    }
    assert all[..|all|] == all;
    forall code
      ensures StoppedWith(queue, all, code) <==> StoppedWith(queue, log, code) || StopCode(queue, all) == Some(code)
    {
      if StoppedWith(queue, log, code) {
        var n :| 0 < n <= |log| && StopCode(queue, log[..n]) == Some(code);
        assert StopCode(queue, all[..n]) == Some(code);
      }
    }
    if Stopped(queue, log) {
      var n :| 0 < n <= |log| && StopCode(queue, log[..n]).Some?;
      assert StopCode(queue, all[..n]).Some?;
    }
  }

  lemma ExplainedSnoc(t: Tables, config: Config, cohort: CohortId, queue: seq<Queued>, log: seq<Disposition>,
                      d: Disposition)
    requires |log| < |queue| && Explained(t, config, cohort, queue, log) && Follows(t, config, cohort, queue, log, d)
    ensures Explained(t, config, cohort, queue, log + [d])
  {
    hide Follows;
    var all := log + [d];
    forall i | 0 <= i < |all|
      ensures Follows(t, config, cohort, queue, all[..i], all[i])
    {
      PrefixSnoc(log, d, i);
      assert log[..|log|] == log;
    }
  }

  lemma VisitFollows(g: Progress, t: Tables, config: Config, cohort: CohortId, queue: seq<Queued>)
    requires |g.log| < |queue| && Remembers(g, t, cohort, queue)
    ensures var g' := Visited(g, config, cohort, queue[|g.log|].kind, queue[|g.log|].visit);
            && |g'.log| == |g.log| + 1 && g'.log == g.log + [g'.log[|g.log|]]
            && Follows(t, config, cohort, queue, g.log, g'.log[|g.log|])
  {
    hide RefusalOf, TablesAfter, Researched, SessionOf, StoppedWith, Stopped, EntrySkip, RepeatTail, FailureTail;
  }

  lemma TailsSnoc(log: seq<Disposition>, d: Disposition)
    ensures FailureTail(log + [d]) == match d
              case SessionFailed(_) => FailureTail(log) + 1
              case Recorded => 0
              case _ => FailureTail(log)
    ensures RepeatTail(log + [d]) == match d
              case SessionFailed(code) => if Repeated(code) then RepeatTail(log) + 1 else 0
              case Recorded => 0
              case _ => RepeatTail(log)
  {
    assert (log + [d])[..|log|] == log;
  }

  lemma MemorySnoc(t: Tables, cohort: CohortId, queue: seq<Queued>, log: seq<Disposition>, d: Disposition)
    requires |log| < |queue|
    ensures var next := queue[|log|];
            && TablesAfter(t, cohort, queue, log + [d]) ==
               (if IsSession(d)
                then Researched(TablesAfter(t, cohort, queue, log), SessionOf(cohort, next.kind, next.visit))
                else TablesAfter(t, cohort, queue, log))
            && EntrySkip(queue, log + [d]) ==
               (if next.kind == Entry && d.Skipped? then Some(d.reason) else EntrySkip(queue, log))
  {
    hide Researched, SessionOf;
    assert (log + [d])[..|log|] == log;
  }

  lemma VisitRemembers(g: Progress, t: Tables, config: Config, cohort: CohortId, queue: seq<Queued>)
    requires |g.log| < |queue| && Remembers(g, t, cohort, queue)
    ensures var g' := Visited(g, config, cohort, queue[|g.log|].kind, queue[|g.log|].visit);
            |g'.log| == |g.log| + 1 && Remembers(g', t, cohort, queue)
  {
    hide RefusalOf, Researched, SessionOf, StoppedWith, Stopped, TablesAfter, EntrySkip, RepeatTail, FailureTail;
    var g' := Visited(g, config, cohort, queue[|g.log|].kind, queue[|g.log|].visit);
    var d := g'.log[|g.log|];
    assert g'.log == g.log + [d];
    TailsSnoc(g.log, d);
    StoppedSnoc(queue, g.log, d);
    MemorySnoc(t, cohort, queue, g.log, d);
  }

  /** The run after its first `n` queued markets. */
  ghost function After(t: Tables, config: Config, cohort: CohortId, queue: seq<Queued>, n: nat): Progress
    requires n <= |queue|
  {
    if n == 0 then Progress(t, 0, 0, None, None, [])
    else Visited(After(t, config, cohort, queue, n - 1), config, cohort, queue[n - 1].kind, queue[n - 1].visit)
  }

  lemma {:induction false} AfterAll(t: Tables, config: Config, cohort: CohortId, queue: seq<Queued>, n: nat,
                                    kind: Kind, part: seq<Visit>)
    requires n + |part| <= |queue|
    requires forall i | 0 <= i < |part| :: queue[n + i] == Queued(kind, part[i])
    ensures VisitedAll(After(t, config, cohort, queue, n), config, cohort, kind, part) ==
            After(t, config, cohort, queue, n + |part|)
    decreases |part|
  {
    hide Visited;
    if part != [] {
      assert queue[n + 0] == Queued(kind, part[0]);
      assert forall i | 0 <= i < |part[1..]| :: part[1..][i] == part[i + 1] && queue[n + 1 + i] == queue[n + (i + 1)];
      AfterAll(t, config, cohort, queue, n + 1, kind, part[1..]);
    }
  }

  /** The two loops are one pass over the joined queue. */
  lemma DayRunAfter(t: Tables, config: Config, cohort: CohortId, updates: seq<Visit>, entries: seq<Visit>)
    ensures var queue := Queue(updates, entries);
            DayRun(t, config, cohort, updates, entries) == After(t, config, cohort, queue, |queue|)
  {
    hide Visited, VisitedAll;
    var queue := Queue(updates, entries);
    AfterAll(t, config, cohort, queue, 0, Update, updates);
    AfterAll(t, config, cohort, queue, |updates|, Entry, entries);
  }

  lemma VisitExplained(g: Progress, t: Tables, config: Config, cohort: CohortId, queue: seq<Queued>)
    requires |g.log| < |queue| && Explained(t, config, cohort, queue, g.log) && Remembers(g, t, cohort, queue)
    ensures var g' := Visited(g, config, cohort, queue[|g.log|].kind, queue[|g.log|].visit);
            |g'.log| == |g.log| + 1 && Explained(t, config, cohort, queue, g'.log) && Remembers(g', t, cohort, queue)
  {
    hide Explained, Remembers, Visited, Follows;
    VisitFollows(g, t, config, cohort, queue);
    VisitRemembers(g, t, config, cohort, queue);
    var g' := Visited(g, config, cohort, queue[|g.log|].kind, queue[|g.log|].visit);
    ExplainedSnoc(t, config, cohort, queue, g.log, g'.log[|g.log|]);
  }

  lemma AfterNext(t: Tables, config: Config, cohort: CohortId, queue: seq<Queued>, n: nat)
    requires n < |queue|
    ensures After(t, config, cohort, queue, n + 1) ==
            Visited(After(t, config, cohort, queue, n), config, cohort, queue[n].kind, queue[n].visit)
  {
    hide Visited;
  }

  lemma {:induction false} AfterExplained(t: Tables, config: Config, cohort: CohortId, queue: seq<Queued>, n: nat)
    requires n <= |queue|
    ensures var g := After(t, config, cohort, queue, n);
            |g.log| == n && Explained(t, config, cohort, queue, g.log) && Remembers(g, t, cohort, queue)
  {
    hide Explained, Remembers, Visited, After;
    if n == 0 {
      NothingYetExplained(t, config, cohort, queue);
    } else {
      AfterExplained(t, config, cohort, queue, n - 1);
      VisitExplained(After(t, config, cohort, queue, n - 1), t, config, cohort, queue);
      AfterNext(t, config, cohort, queue, n - 1);
    }
  }

  lemma NothingYetExplained(t: Tables, config: Config, cohort: CohortId, queue: seq<Queued>)
    ensures var g := After(t, config, cohort, queue, 0);
            g.log == [] && Explained(t, config, cohort, queue, g.log) && Remembers(g, t, cohort, queue)
  {
  }

  /** EVERY QUEUED MARKET GETS EXACTLY ONE DISPOSITION, in queue order, and exactly the one its
      predecessors leave it: aborted with a code if and only if an earlier session stopped the run with
      that code, no longer eligible or skipped if and only if the run goes on and the re-check or the
      day's budget says so, and otherwise what its session answered. The streaks run across updates and
      entries. The tables are what those sessions leave. */
  lemma DayIsDisciplined(t: Tables, config: Config, cohort: CohortId, updates: seq<Visit>, entries: seq<Visit>)
    ensures var g, queue := DayRun(t, config, cohort, updates, entries), Queue(updates, entries);
            && |g.log| == |queue|
            && Explained(t, config, cohort, queue, g.log)
            && g.t == TablesAfter(t, cohort, queue, g.log)
            && (forall code :: g.aborted == Some(code) <==> StoppedWith(queue, g.log, code))
  {
    hide Explained, TablesAfter, DayRun;
    DayRunAfter(t, config, cohort, updates, entries);
    AfterExplained(t, config, cohort, Queue(updates, entries), |updates| + |entries|);
  }

  lemma ExplainedInit(t: Tables, config: Config, cohort: CohortId, queue: seq<Queued>, log: seq<Disposition>)
    requires 0 < |log| <= |queue| && Explained(t, config, cohort, queue, log)
    ensures var n := |log| - 1;
            Explained(t, config, cohort, queue, log[..n]) && Follows(t, config, cohort, queue, log[..n], log[n])
  {
    hide Follows;
    var init := log[..|log| - 1];
    forall i | 0 <= i < |init|
      ensures Follows(t, config, cohort, queue, init[..i], init[i])
    {
      assert init[..i] == log[..i];
    }
  }

  /** While the run goes on neither streak is full. */
  lemma {:induction false} RunningStreaks(queue: seq<Queued>, log: seq<Disposition>)
    requires |log| <= |queue| && !Stopped(queue, log)
    ensures RepeatTail(log) < SDK_ERROR_STREAK && FailureTail(log) < ANY_FAILURE_STREAK
    decreases |log|
  {
    if log != [] {
      var init := log[..|log| - 1];
      assert log[..|log|] == log;
      assert StopCode(queue, log).None?;
      forall n | 0 < n <= |init|
        ensures StopCode(queue, init[..n]).None?
      {
        assert init[..n] == log[..n];
      }
      RunningStreaks(queue, init);
    }
  }

  /** A full streak has stopped the run. */
  ghost predicate StreaksHeld(queue: seq<Queued>, log: seq<Disposition>)
    requires |log| <= |queue|
  {
    && RepeatTail(log) <= SDK_ERROR_STREAK && FailureTail(log) <= ANY_FAILURE_STREAK
    && (RepeatTail(log) == SDK_ERROR_STREAK || FailureTail(log) == ANY_FAILURE_STREAK ==> Stopped(queue, log))
  }

  lemma {:induction false} StreaksNeverOverrun(t: Tables, config: Config, cohort: CohortId, queue: seq<Queued>,
                                               log: seq<Disposition>)
    requires |log| <= |queue| && Explained(t, config, cohort, queue, log)
    ensures StreaksHeld(queue, log)
    decreases |log|
  {
    hide NextRefusal, StopCode, StoppedWith, Explained;
    if !Stopped(queue, log) {
      RunningStreaks(queue, log);
    }
    if log != [] {
      var n := |log| - 1;
      ExplainedInit(t, config, cohort, queue, log);
      StreaksNeverOverrun(t, config, cohort, queue, log[..n]);
      if log[n].SessionFailed? {
        RunningStreaks(queue, log[..n]);
      }
    }
  }

  lemma ExplainedPrefix(t: Tables, config: Config, cohort: CohortId, queue: seq<Queued>, log: seq<Disposition>, n: nat)
    requires n <= |log| <= |queue| && Explained(t, config, cohort, queue, log)
    ensures Explained(t, config, cohort, queue, log[..n])
  {
    hide Follows;
    forall i | 0 <= i < n
      ensures Follows(t, config, cohort, queue, log[..n][..i], log[..n][i])
    {
      assert log[..n][..i] == log[..i];
    }
  }

  /** NEVER A THIRD SDK ERROR OR A FOURTH FAILURE IN A ROW: at every moment of a research day, updates and entries
      together, at most two sessions since the last other one failed with SDK_ERROR or TIMEOUT and at most
      three since the last success failed at all, and once either is reached the run has stopped. */
  lemma StreaksBounded(t: Tables, config: Config, cohort: CohortId, updates: seq<Visit>, entries: seq<Visit>, n: nat)
    requires n <= |updates| + |entries|
    ensures var log := DayRun(t, config, cohort, updates, entries).log;
            |log| == |updates| + |entries| && StreaksHeld(Queue(updates, entries), log[..n])
  {
    hide Explained, DayRun, StreaksHeld;
    DayIsDisciplined(t, config, cohort, updates, entries);
    var log, queue := DayRun(t, config, cohort, updates, entries).log, Queue(updates, entries);
    ExplainedPrefix(t, config, cohort, queue, log, n);
    StreaksNeverOverrun(t, config, cohort, queue, log[..n]);
  }

  // ---------- what stops a day, by name ----------

  /** The last market of this log that a session was run for. */
  function LastSession(log: seq<Disposition>): (i: Option<nat>)
    ensures i.Some? ==> i.value < |log|
  {
    if log == [] then None
    else match log[|log| - 1]
      case SessionFailed(_) => Some(|log| - 1)
      case Recorded => Some(|log| - 1)
      case _ => LastSession(log[..|log| - 1])
  }

  /** The last `k` sessions of this log all failed. */
  predicate LastFailed(log: seq<Disposition>, k: nat)
    decreases k
  {
    k == 0 || (LastSession(log).Some? && log[LastSession(log).value].SessionFailed?
               && LastFailed(log[..LastSession(log).value], k - 1))
  }

  predicate SdkErrorOrTimeout(d: Disposition) { d == SessionFailed(SdkError) || d == SessionFailed(Timeout) }

  /** The last `k` sessions of this log all failed with an SDK error or a timeout. */
  predicate LastRepeated(log: seq<Disposition>, k: nat)
    decreases k
  {
    k == 0 || (LastSession(log).Some? && SdkErrorOrTimeout(log[LastSession(log).value])
               && LastRepeated(log[..LastSession(log).value], k - 1))
  }

  lemma {:induction false} TailsBySessions(log: seq<Disposition>, k: nat)
    ensures FailureTail(log) >= k <==> LastFailed(log, k)
    ensures RepeatTail(log) >= k <==> LastRepeated(log, k)
    decreases |log|
  {
    if log != [] && k > 0 {
      var n := |log| - 1;
      if IsSession(log[n]) {
        TailsBySessions(log[..n], k - 1);
      } else {
        TailsBySessions(log[..n], k);
        if LastSession(log).Some? {
          assert log[..n][..LastSession(log).value] == log[..LastSession(log).value];
        }
      }
    }
  }

  /** The `i`th market stopped the day with this code: its session failed with TOOLSET_MISMATCH, HOOK_ERROR or
      CLEANUP_TIMEOUT, was the second in a row to fail with SDK_ERROR or TIMEOUT or the third in a row to fail at
      all, or its forecast met a book outage. */
  predicate StopsAt(queue: seq<Queued>, log: seq<Disposition>, i: nat, code: Code)
    requires i < |log| <= |queue|
  {
    match log[i]
    case SessionFailed(c) =>
      && c == code
      && (c == ToolsetMismatch || c == HookError || c == CleanupTimeout
          || LastRepeated(log[..i + 1], 2) || LastFailed(log[..i + 1], 3))
    case Recorded =>
      code == BaselineUnavailable && queue[i].visit.result.Forecasted? && queue[i].visit.result.outage
    case _ => false
  }

  lemma StopCodeByName(queue: seq<Queued>, log: seq<Disposition>, i: nat, code: Code)
    requires i < |log| <= |queue|
    ensures StopCode(queue, log[..i + 1]) == Some(code) <==> StopsAt(queue, log, i, code)
  {
    TailsBySessions(log[..i + 1], 2);
    TailsBySessions(log[..i + 1], 3);
    hide RepeatTail, FailureTail, LastRepeated, LastFailed;
  }

  /** A MARKET IS ABORTED exactly when an earlier one stopped the day, with its code. */
  lemma AbortedIff(t: Tables, config: Config, cohort: CohortId, updates: seq<Visit>, entries: seq<Visit>, j: nat,
                   code: Code)
    requires j < |updates| + |entries|
    ensures var log, queue := DayRun(t, config, cohort, updates, entries).log, Queue(updates, entries);
            && |log| == |queue|
            && (log[j] == AbortedAfter(code) <==> exists i: nat :: i < j && StopsAt(queue, log, i, code))
  {
    hide DayRun, StopCode, NextRefusal, StopsAt, Queue;
    DayIsDisciplined(t, config, cohort, updates, entries);
    var log, queue := DayRun(t, config, cohort, updates, entries).log, Queue(updates, entries);
    assert Follows(t, config, cohort, queue, log[..j], log[j]);
    forall i: nat | i < j
      ensures StopCode(queue, log[..j][..i + 1]) == Some(code) <==> StopsAt(queue, log, i, code)
    {
      assert log[..j][..i + 1] == log[..i + 1];
      StopCodeByName(queue, log, i, code);
    }
    if StoppedWith(queue, log[..j], code) {
      var n :| 0 < n <= j && StopCode(queue, log[..j][..n]) == Some(code);
      assert StopsAt(queue, log, n - 1, code);
    }
    if i: nat :| i < j && StopsAt(queue, log, i, code) {
      assert StopCode(queue, log[..j][..i + 1]) == Some(code);
    }
  }

  /** A SYSTEMIC FAILURE STOPS THE DAY at once: every later market is aborted with its code. */
  lemma SystemicStopsTheDay(t: Tables, config: Config, cohort: CohortId, updates: seq<Visit>, entries: seq<Visit>,
                            i: nat, j: nat, code: Code)
    requires i < j < |updates| + |entries| && (code == ToolsetMismatch || code == HookError || code == CleanupTimeout)
    ensures var log := DayRun(t, config, cohort, updates, entries).log;
            |log| == |updates| + |entries| && (log[i] == SessionFailed(code) ==> log[j] == AbortedAfter(code))
  {
    AbortedIff(t, config, cohort, updates, entries, j, code);
    hide DayRun;
    var log, queue := DayRun(t, config, cohort, updates, entries).log, Queue(updates, entries);
    if log[i] == SessionFailed(code) {
      assert StopsAt(queue, log, i, code);
    }
  }

  /** A LONE FAILURE with any other code stops nothing, as long as no book outage does. */
  lemma LoneFailureStopsNothing(t: Tables, config: Config, cohort: CohortId, updates: seq<Visit>, entries: seq<Visit>,
                                i: nat, j: nat, code: Code)
    requires i < j < |updates| + |entries| && code != ToolsetMismatch && code != HookError && code != CleanupTimeout
    requires var log := DayRun(t, config, cohort, updates, entries).log;
             && |log| == |updates| + |entries| && log[i] == SessionFailed(code)
             && (forall k | 0 <= k < j && k != i :: !log[k].SessionFailed?)
    requires forall v | v in updates || v in entries :: v.result.Forecasted? ==> !v.result.outage
    ensures !DayRun(t, config, cohort, updates, entries).log[j].AbortedAfter?
  {
    var log, queue := DayRun(t, config, cohort, updates, entries).log, Queue(updates, entries);
    forall other
      ensures log[j] != AbortedAfter(other)
    {
      AbortedIff(t, config, cohort, updates, entries, j, other);
      forall k: nat | k < j
        ensures !StopsAt(queue, log, k, other)
      {
        LoneTail(log, i, k);
        assert queue[k].visit in updates || queue[k].visit in entries;
      }
    }
  }

  lemma LoneTail(log: seq<Disposition>, i: nat, k: nat)
    requires k < |log| && forall m | 0 <= m <= k && m != i :: !log[m].SessionFailed?
    ensures !LastRepeated(log[..k + 1], 2) && !LastFailed(log[..k + 1], 3)
  {
    OneFailure(log[..k + 1], i);
    TailsBySessions(log[..k + 1], 2);
    TailsBySessions(log[..k + 1], 3);
  }

  lemma {:induction false} OneFailure(log: seq<Disposition>, i: nat)
    requires forall m | 0 <= m < |log| && m != i :: !log[m].SessionFailed?
    ensures FailureTail(log) <= if i < |log| then 1 else 0
    ensures RepeatTail(log) <= FailureTail(log)
    decreases |log|
  {
    if log != [] {
      OneFailure(log[..|log| - 1], i);
    }
  }

  /** The rule leaves one log only. */
  lemma {:induction false} OneLog(t: Tables, config: Config, cohort: CohortId, queue: seq<Queued>, a: seq<Disposition>,
                                  b: seq<Disposition>)
    requires |a| == |b| <= |queue| && Explained(t, config, cohort, queue, a) && Explained(t, config, cohort, queue, b)
    ensures a == b
    decreases |a|
  {
    hide Follows, Explained;
    if a != [] {
      var n := |a| - 1;
      ExplainedInit(t, config, cohort, queue, a);
      ExplainedInit(t, config, cohort, queue, b);
      OneLog(t, config, cohort, queue, a[..n], b[..n]);
      FollowsOnce(t, config, cohort, queue, a[..n], a[n], b[n]);
      assert a == a[..n] + [a[n]] && b == b[..n] + [b[n]];
    }
  }

  lemma FollowsOnce(t: Tables, config: Config, cohort: CohortId, queue: seq<Queued>, log: seq<Disposition>,
                    a: Disposition, b: Disposition)
    requires |log| < |queue| && Follows(t, config, cohort, queue, log, a) && Follows(t, config, cohort, queue, log, b)
    ensures a == b
  {
    hide NextRefusal, Stopped, StoppedWith;
  }

  // ---------- the run within its budget ----------

  /** When the last session of this log started. */
  function LastStart(queue: seq<Queued>, log: seq<Disposition>, clock: int): int
    requires |log| <= |queue|
    decreases |log|
  {
    if log == [] then clock
    else if IsSession(log[|log| - 1]) then queue[|log| - 1].visit.startedAt
    else LastStart(queue, log[..|log| - 1], clock)
  }

  /** The clock readings of the sessions follow one another, and none reports more than this. */
  ghost predicate Timed(queue: seq<Queued>, log: seq<Disposition>, clock: int, most: real) {
    forall n | 0 <= n < |log| && n < |queue| && IsSession(log[n]) ::
      && LastStart(queue, log[..n], clock) <= queue[n].visit.checkedAt <= queue[n].visit.startedAt
      && 0.0 <= queue[n].visit.result.cost <= most
  }

  /** Sessions of one configuration that overshoot its cap by no more than `slack`. */
  predicate SessionsUnder(ops: seq<SpendOp>, config: Config, slack: real) {
    forall op | op in ops :: op.Research? && op.config == config && Overshoot(op.session, config.perForecast) <= slack
  }

  function OpAt(config: Config, cohort: CohortId, queue: seq<Queued>, n: nat): SpendOp
    requires n < |queue|
  {
    Research(config, SessionOf(cohort, queue[n].kind, queue[n].visit))
  }

  lemma OpAdmissible(h: History, config: Config, slack: real, cohort: CohortId, queue: seq<Queued>,
                     log: seq<Disposition>, n: nat, start: int)
    requires n < |log| <= |queue| && IsSession(log[n]) && slack >= 0.0
    requires FrozenAt(h.t, cohort, config.perForecast) && Timed(queue, log, start, config.perForecast + slack)
    ensures var op := OpAt(config, cohort, queue, n);
            && op.Research? && op.config == config && Overshoot(op.session, config.perForecast) <= slack
            && Admissible(h, op, LastStart(queue, log[..n], start))
            && FrozenAt(Spend(h, op).t, cohort, config.perForecast)
  {
    hide RefusalOf, FrozenCap, LastStart;
    assert 0.0 <= queue[n].visit.result.cost <= config.perForecast + slack;
    hide Timed;
  }

  /** What the `n`th market does to the spend: nothing, or one session that passed the check. */
  lemma MarketSpends(h: History, t: Tables, config: Config, cohort: CohortId, queue: seq<Queued>,
                     log: seq<Disposition>, n: nat, start: int)
    requires n < |log| <= |queue| && Explained(t, config, cohort, queue, log)
    requires h.t == TablesAfter(t, cohort, queue, log[..n])
    ensures var op := OpAt(config, cohort, queue, n);
            && TablesAfter(t, cohort, queue, log[..n + 1]) == (if IsSession(log[n]) then Spend(h, op).t else h.t)
            && LastStart(queue, log[..n + 1], start) ==
               (if IsSession(log[n]) then ClockAfter(op, LastStart(queue, log[..n], start))
                else LastStart(queue, log[..n], start))
  {
    hide RefusalOf, Researched, Stopped, StoppedWith, EntrySkip;
    assert Follows(t, config, cohort, queue, log[..n], log[n]);
    assert log[..n + 1][..n] == log[..n];
  }

  lemma NoOps(h: History, config: Config, clock: int)
    ensures AdmissibleAll(h, [], clock) && SpendAll(h, []) == h && forall slack :: SessionsUnder([], config, slack)
  {
  }

  lemma SpendCons(h: History, op: SpendOp, rest: seq<SpendOp>, clock: int)
    requires Admissible(h, op, clock) && AdmissibleAll(Spend(h, op), rest, ClockAfter(op, clock))
    ensures forall config, slack
              | op.Research? && op.config == config && Overshoot(op.session, config.perForecast) <= slack ::
              SessionsUnder(rest, config, slack) ==> SessionsUnder([op] + rest, config, slack)
    ensures AdmissibleAll(h, [op] + rest, clock) && SpendAll(h, [op] + rest) == SpendAll(Spend(h, op), rest)
  {
    hide Spend, Admissible, ClockAfter;
    assert ([op] + rest)[1..] == rest;
  }

  /** The rest of the queue, from its `n`th market on, as operations of a spending run. */
  lemma {:induction false} QueueSpends(h: History, t: Tables, config: Config, slack: real, cohort: CohortId,
                                       queue: seq<Queued>, log: seq<Disposition>, n: nat, start: int)
    returns (ops: seq<SpendOp>)
    requires n <= |log| <= |queue| && Explained(t, config, cohort, queue, log) && slack >= 0.0
    requires h.t == TablesAfter(t, cohort, queue, log[..n])
    requires FrozenAt(h.t, cohort, config.perForecast) && Timed(queue, log, start, config.perForecast + slack)
    ensures AdmissibleAll(h, ops, LastStart(queue, log[..n], start))
    ensures SpendAll(h, ops).t == TablesAfter(t, cohort, queue, log) && SessionsUnder(ops, config, slack)
    decreases |log| - n
  {
    hide TablesAfter, Explained, Timed, Spend, FrozenAt, OpAt, LastStart, ClockAfter, Admissible, AdmissibleAll,
         SpendAll, SessionsUnder;
    var clock := LastStart(queue, log[..n], start);
    if n == |log| {
      assert log[..n] == log;
      NoOps(h, config, clock);
      return [];
    }
    var op := OpAt(config, cohort, queue, n);
    MarketSpends(h, t, config, cohort, queue, log, n, start);
    if IsSession(log[n]) {
      OpAdmissible(h, config, slack, cohort, queue, log, n, start);
      var rest := QueueSpends(Spend(h, op), t, config, slack, cohort, queue, log, n + 1, start);
      SpendCons(h, op, rest, clock);
      ops := [op] + rest;
    } else {
      ops := QueueSpends(h, t, config, slack, cohort, queue, log, n + 1, start);
    }
  }

  lemma EnsuredWithin(h: History, clock: int, identity: Identity, bankroll: real, now: int)
    requires WithinBudgets(h, clock) && CohortEnsured(h.t, identity, bankroll, now).Ok?
    ensures WithinBudgets(h.(t := CohortEnsured(h.t, identity, bankroll, now).value), clock)
  {
    hide CohortEnsured;
    EnsuredActive(h.t, identity, bankroll, now);
    var t' := CohortEnsured(h.t, identity, bankroll, now).value;
    forall day, fallback
      ensures Spent(t', day, fallback) == Spent(h.t, day, fallback)
    {
      Sums.SumCongruent(t'.attempts, ChargeOn(t', day, fallback), ChargeOn(h.t, day, fallback));
    }
  }

  /** Each day's limits are those from before or the configuration's, but for the slack. */
  ghost predicate LimitsFrom(h: History, h': History, config: Config, slack: real) {
    forall day ::
      && (BudgetOf(h', day) == BudgetOf(h, day) || config.daily <= BudgetOf(h', day) <= config.daily + slack)
      && (VolumeOf(h', day) == VolumeOf(h, day) || VolumeOf(h', day) == config.maxEntries)
  }

  lemma {:induction false} LimitsAfter(h: History, ops: seq<SpendOp>, config: Config, slack: real)
    requires SessionsUnder(ops, config, slack)
    ensures LimitsFrom(h, SpendAll(h, ops), config, slack)
    decreases |ops|
  {
    hide RefusalOf, Researched;
    if ops != [] {
      assert ops[0] in ops;
      LimitsAfter(Spend(h, ops[0]), ops[1..], config, slack);
    }
  }

  /** The loops are sessions of a spending run. */
  lemma LoopsWithin(h: History, config: Config, slack: real, cohort: CohortId, updates: seq<Visit>,
                    entries: seq<Visit>, clock: int)
    returns (h': History, last: int)
    requires WithinBudgets(h, clock) && FrozenAt(h.t, cohort, config.perForecast) && slack >= 0.0
    requires var log := DayRun(h.t, config, cohort, updates, entries).log;
             Timed(Queue(updates, entries), log, clock, config.perForecast + slack)
    ensures h'.t == DayRun(h.t, config, cohort, updates, entries).t
    ensures WithinBudgets(h', last) && LimitsFrom(h, h', config, slack)
  {
    hide WithinBudgets, Timed, DayRun, SpendAll, AdmissibleAll, FrozenAt, LimitsFrom, SessionsUnder, Explained;
    var queue, log := Queue(updates, entries), DayRun(h.t, config, cohort, updates, entries).log;
    hide Queue;
    DayIsDisciplined(h.t, config, cohort, updates, entries);
    assert log[..0] == [];
    var ops := QueueSpends(h, h.t, config, slack, cohort, queue, log, 0, clock);
    last := RunWithin(h, clock, ops);
    h' := SpendAll(h, ops);
    LimitsAfter(h, ops, config, slack);
  }

  lemma EmptyTimed(t: Tables, config: Config, cohort: CohortId, clock: int, most: real)
    ensures Timed(Queue([], []), DayRun(t, config, cohort, [], []).log, clock, most)
  {
  }

  /** The cohort ensured and the interrupted attempts closed. */
  lemma PreparedWithin(h: History, config: Config, identity: Identity, bankroll: real, now: int, clock: int)
    returns (h': History)
    requires WithinBudgets(h, clock) && CohortEnsured(h.t, identity, bankroll, now).Ok?
    requires identity.perForecastUsd == Some(config.perForecast) && config.perForecast > 0.0
    requires CohortHash(identity) in h.t.cohorts ==> h.t.cohorts[CohortHash(identity)].identity == identity
    ensures var t := CohortEnsured(h.t, identity, bankroll, now).value;
            h' == h.(t := Recovered(t, Fallback(t.cohorts, config.perForecast), now))
    ensures WithinBudgets(h', clock) && FrozenAt(h'.t, CohortHash(identity), config.perForecast)
  {
    hide CohortEnsured, Recovered, WithinBudgets;
    var t := CohortEnsured(h.t, identity, bankroll, now).value;
    EnsuredWithin(h, clock, identity, bankroll, now);
    EnsuredActive(h.t, identity, bankroll, now);
    RecoverWithin(h.(t := t), clock, config.perForecast, now);
    RecoveredCohorts(t, Fallback(t.cohorts, config.perForecast), now);
    h' := Spend(h.(t := t), Recover(config.perForecast, now));
  }

  lemma SameLimits(h: History, h1: History, h': History, config: Config, slack: real)
    requires LimitsFrom(h1, h', config, slack) && h1.budgets == h.budgets && h1.volumes == h.volumes
    ensures LimitsFrom(h, h', config, slack)
  {
    forall day
      ensures BudgetOf(h1, day) == BudgetOf(h, day) && VolumeOf(h1, day) == VolumeOf(h, day)
    {
    }
    hide BudgetOf, VolumeOf;
  }

  /** A RESEARCH DAY IS A SPENDING RUN: after its cohort is ensured it recovers and then runs sessions
      under its one configuration, in a cohort frozen at that configuration's cap. So after any such days
      no UTC day is charged more than the budget its latest session started under and that session's
      overshoot, wherever midnight falls, and none has started more entries than its latest entry was
      allowed. (A cohort is stored under its own identity's hash.) */
  lemma DayWithinBudget(h: History, config: Config, slack: real, identity: Identity, bankroll: real, now: int,
                        stale: bool, updates: seq<Visit>, entries: seq<Visit>, clock: int)
    returns (h': History, last: int)
    requires WithinBudgets(h, clock) && CohortEnsured(h.t, identity, bankroll, now).Ok?
    requires identity.perForecastUsd == Some(config.perForecast) && config.perForecast > 0.0 && slack >= 0.0
    requires CohortHash(identity) in h.t.cohorts ==> h.t.cohorts[CohortHash(identity)].identity == identity
    requires var day := ResearchDay(CohortEnsured(h.t, identity, bankroll, now).value, config, CohortHash(identity),
                                    now, stale, updates, entries);
             Timed(Queue(updates, entries), day.log, clock, config.perForecast + slack)
    ensures h'.t == ResearchDay(CohortEnsured(h.t, identity, bankroll, now).value, config, CohortHash(identity), now,
                                stale, updates, entries).t
    ensures WithinBudgets(h', last) && LimitsFrom(h, h', config, slack)
  {
    hide CohortEnsured, Queue, Recovered, Timed, DayRun, WithinBudgets, FrozenAt, LimitsFrom, Fallback;
    var prepared := PreparedWithin(h, config, identity, bankroll, now, clock);
    EmptyTimed(prepared.t, config, CohortHash(identity), clock, config.perForecast + slack);
    h', last := LoopsWithin(prepared, config, slack, CohortHash(identity), if stale then [] else updates,
                            if stale then [] else entries, clock);
    SameLimits(h, prepared, h', config, slack);
  }
}
