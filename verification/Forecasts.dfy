/** Research attempts, forecast records, post-forecast baselines and resume state
    (src/predict_agent/forecasts.py, src/predict_agent/research_run.py:478-540). */
module Forecasts {
  import opened Prelude
  import opened Time
  import opened PolicyParams
  import opened Policy
  import opened Schema
  import opened Cohorts

  predicate CohortActive(t: Tables, cohort: CohortId) {
    cohort in t.cohorts && t.cohorts[cohort].status == ActiveCohort
  }

  function AttemptStarted(t: Tables, cohort: CohortId, condition: string, kind: Kind, now: int)
    : Result<Tables, LedgerError>
  {
    if !CohortActive(t, cohort) then Err(CohortNotActive)
    else Ok(t.(attempts := t.attempts + [Attempt(cohort, condition, kind, now, Started)]))
  }

  method StartAttempt(conn: Connection, cohort: CohortId, condition: string, kind: Kind, now: int)
    returns (result: Result<nat, LedgerError>)
    modifies conn
    ensures match AttemptStarted(old(conn.db), cohort, condition, kind, now)
            case Ok(t) => conn.db == t && result == Ok(|old(conn.db).attempts|)
            case Err(error) => conn.db == old(conn.db) && result == Err(error)
  {
    if !CohortActive(conn.db, cohort) {
      return Err(CohortNotActive);
    }
    result := Ok(|conn.db.attempts|);
    conn.db := conn.db.(attempts := conn.db.attempts + [Attempt(cohort, condition, kind, now, Started)]);
  }

  function AttemptFailed(t: Tables, attempt: nat, cost: real, error: string, now: int): Result<Tables, LedgerError> {
    if cost < 0.0 || error == "" then Err(InvalidForecast)
    else if attempt >= |t.attempts| || t.attempts[attempt].status != Started then Err(AttemptNotStarted)
    else Ok(t.(attempts := t.attempts[attempt := t.attempts[attempt].(status := Failed(now, cost, error))]))
  }

  method FailAttempt(conn: Connection, attempt: nat, cost: real, error: string, now: int)
    returns (result: Result<(), LedgerError>)
    modifies conn
    ensures match AttemptFailed(old(conn.db), attempt, cost, error, now)
            case Ok(t) => conn.db == t && result == Ok(())
            case Err(e) => conn.db == old(conn.db) && result == Err(e)
  {
    if cost < 0.0 || error == "" {
      return Err(InvalidForecast);
    }
    if attempt >= |conn.db.attempts| || conn.db.attempts[attempt].status != Started {
      return Err(AttemptNotStarted);
    }
    var closed := conn.db.attempts[attempt].(status := Failed(now, cost, error));
    conn.db := conn.db.(attempts := conn.db.attempts[attempt := closed]);
    result := Ok(());
  }

  /** The rules of `validate_forecast`: an abstention has a reason and nothing else, any other forecast
      has all three probabilities, a confidence and a base rate. */
  predicate ValidForecast(b: ForecastBody) {
    && b.cost >= 0.0
    && (b.baseRate.Some? ==> 0.0 <= b.baseRate.value <= 1.0)
    && if b.abstained
       then b.abstainReason.Some? && b.abstainReason.value != "" && b.bands == None && b.confidence == None
       else
         && b.abstainReason.None? && b.bands.Some? && ValidBands(b.bands.value)
         && b.confidence.Some? && b.baseRate.Some?
  }

  predicate HasEntryForecast(t: Tables, cohort: CohortId, condition: string) {
    exists f | f in t.forecasts :: f.body.cohort == cohort && f.body.condition == condition && f.body.kind == Entry
  }

  function ForecastError(t: Tables, b: ForecastBody): Option<LedgerError> {
    if !ValidForecast(b) then Some(InvalidForecast)
    else if !CohortActive(t, b.cohort) then Some(CohortNotActive)
    else if b.attempt >= |t.attempts| then Some(AttemptNotStarted)
    else
      var a := t.attempts[b.attempt];
      if a.status != Started || a.cohort != b.cohort || a.condition != b.condition || a.kind != b.kind
      then Some(AttemptNotStarted)
      else if a.startedAt > b.createdAt then Some(InvalidForecast)
      else if (b.condition, b.rulesHash) !in t.rules then Some(RulesDiffer)
      else if !IsArtifact(t, b.inputHash, ResearchInput) || !IsArtifact(t, b.transcriptHash, ToolTranscript)
      then Some(MissingArtifact)
      else if b.kind == Entry && HasEntryForecast(t, b.cohort, b.condition) then Some(DuplicateEntry)
      else None
  }

  /** The forecast and its attempt's success, together. */
  function ForecastRecorded(t: Tables, b: ForecastBody): Result<Tables, LedgerError> {
    match ForecastError(t, b)
    case Some(error) => Err(error)
    case None =>
      Ok(t.(forecasts := t.forecasts + [Forecast(b, ForecastHash(b))],
            attempts := t.attempts[b.attempt := t.attempts[b.attempt].(status := Succeeded(b.createdAt, b.cost))]))
  }

  method RecordForecast(conn: Connection, b: ForecastBody) returns (result: Result<nat, LedgerError>)
    modifies conn
    ensures match ForecastRecorded(old(conn.db), b)
            case Ok(t) => conn.db == t && result == Ok(|old(conn.db).forecasts|)
            case Err(error) => conn.db == old(conn.db) && result == Err(error)
  {
    var error := ForecastError(conn.db, b);
    if error.Some? {
      return Err(error.value);
    }
    result := Ok(|conn.db.forecasts|);
    conn.db := conn.db.(forecasts := conn.db.forecasts + [Forecast(b, ForecastHash(b))]);
    var done := conn.db.attempts[b.attempt].(status := Succeeded(b.createdAt, b.cost));
    conn.db := conn.db.(attempts := conn.db.attempts[b.attempt := done]);
  }

  /** AN ATTEMPT IS STARTED exactly in an active cohort, and closed exactly once, with a cost and a reason. */
  lemma AttemptsIff(t: Tables, cohort: CohortId, condition: string, kind: Kind, attempt: nat, cost: real,
                    error: string, now: int)
    ensures AttemptStarted(t, cohort, condition, kind, now).Ok? <==>
            cohort in t.cohorts && t.cohorts[cohort].status == ActiveCohort
    ensures AttemptFailed(t, attempt, cost, error, now).Ok? <==>
            cost >= 0.0 && error != "" && attempt < |t.attempts| && t.attempts[attempt].status == Started
  {
  }

  /** Either an abstention with a reason and no probabilities, or three ordered probabilities between a hundredth and
      its complement with a confidence and a base rate. */
  predicate WellFormedForecast(b: ForecastBody) {
    && b.cost >= 0.0 && (b.baseRate.Some? ==> 0.0 <= b.baseRate.value <= 1.0)
    && (b.abstained ==>
          b.abstainReason.Some? && b.abstainReason.value != "" && b.bands.None? && b.confidence.None?)
    && (!b.abstained ==>
          && b.abstainReason.None? && b.confidence.Some? && b.baseRate.Some? && b.bands.Some?
          && 0.01 <= b.bands.value.low && b.bands.value.low <= b.bands.value.mid
          && b.bands.value.mid <= b.bands.value.high && b.bands.value.high <= 1.0 - 0.01)
  }

  /** A FORECAST IS RECORDED exactly when it is well formed and closes a started attempt of its own cohort, market and
      kind, no later than itself, in an active cohort; its rules, input and transcript are stored; and an entry is
      its cohort's first on the market. */
  lemma RecordsIff(t: Tables, b: ForecastBody)
    ensures ForecastRecorded(t, b).Ok? <==>
            && WellFormedForecast(b) && b.cohort in t.cohorts && t.cohorts[b.cohort].status == ActiveCohort
            && b.attempt < |t.attempts|
            && (var a := t.attempts[b.attempt];
                && a.status == Started && a.cohort == b.cohort && a.condition == b.condition && a.kind == b.kind
                && a.startedAt <= b.createdAt)
            && (b.condition, b.rulesHash) in t.rules
            && b.inputHash in t.artifacts && t.artifacts[b.inputHash].kind == ResearchInput
            && b.transcriptHash in t.artifacts && t.artifacts[b.transcriptHash].kind == ToolTranscript
            && (b.kind == Entry ==>
                  forall f | f in t.forecasts && f.body.kind == Entry ::
                    f.body.cohort != b.cohort || f.body.condition != b.condition)
  {
  }

  // ---------- baselines ----------

  predicate ForecastKnown(t: Tables, forecast: nat) {
    forecast < |t.forecasts| && t.forecasts[forecast].body.cohort in t.cohorts
  }

  /** The latest fetch time a baseline snapshot may have: the cohort's frozen window. */
  function Deadline(t: Tables, forecast: nat): int
    requires ForecastKnown(t, forecast)
  {
    t.forecasts[forecast].body.createdAt + t.cohorts[t.forecasts[forecast].body.cohort].window * SECOND
  }

  predicate TimelySnapshot(t: Tables, forecast: nat, snapshot: nat, side: Side)
    requires ForecastKnown(t, forecast)
  {
    && snapshot < |t.snapshots|
    && t.snapshots[snapshot].condition == t.forecasts[forecast].body.condition
    && t.snapshots[snapshot].side == side
    && t.forecasts[forecast].body.createdAt <= t.snapshots[snapshot].fetchedAt <= Deadline(t, forecast)
  }

  function BaselineAttached(t: Tables, forecast: nat, yes: nat, no: nat, now: int): Result<Tables, LedgerError> {
    if !ForecastKnown(t, forecast) then Err(UnknownForecast)
    else if forecast in t.baselines then Err(AlreadyBaselined)
    else if yes >= |t.snapshots| then Err(UnknownSnapshot)
    else if !TimelySnapshot(t, forecast, yes, YES) then Err(OutsideWindow)
    else if no >= |t.snapshots| then Err(UnknownSnapshot)
    else if !TimelySnapshot(t, forecast, no, NO) then Err(OutsideWindow)
    else Ok(t.(baselines := t.baselines[forecast := Timely(yes, no, now)]))
  }

  method AttachBaseline(conn: Connection, forecast: nat, yes: nat, no: nat, now: int)
    returns (result: Result<(), LedgerError>)
    modifies conn
    ensures match BaselineAttached(old(conn.db), forecast, yes, no, now)
            case Ok(t) => conn.db == t && result == Ok(())
            case Err(error) => conn.db == old(conn.db) && result == Err(error)
  {
    if !ForecastKnown(conn.db, forecast) {
      return Err(UnknownForecast);
    }
    if forecast in conn.db.baselines {
      return Err(AlreadyBaselined);
    }
    var pairs := [(yes, YES), (no, NO)];
    for i := 0 to 2
      invariant conn.db == old(conn.db)
      invariant i >= 1 ==> TimelySnapshot(conn.db, forecast, yes, YES)
      invariant i >= 2 ==> TimelySnapshot(conn.db, forecast, no, NO)
    {
      var (snapshot, side) := pairs[i];
      if snapshot >= |conn.db.snapshots| {
        return Err(UnknownSnapshot);
      }
      if !TimelySnapshot(conn.db, forecast, snapshot, side) {
        return Err(OutsideWindow);
      }
    }
    conn.db := conn.db.(baselines := conn.db.baselines[forecast := Timely(yes, no, now)]);
    result := Ok(());
  }

  /** The snapshot is of the forecast's market and that side, fetched no earlier than the forecast and no later than
      its cohort's window of seconds after it. */
  predicate InWindow(t: Tables, forecast: nat, snapshot: nat, side: Side) {
    && forecast < |t.forecasts| && t.forecasts[forecast].body.cohort in t.cohorts && snapshot < |t.snapshots|
    && (var body, s := t.forecasts[forecast].body, t.snapshots[snapshot];
        && s.condition == body.condition && s.side == side
        && 0 <= s.fetchedAt - body.createdAt <= t.cohorts[body.cohort].window * 1_000_000)
  }

  /** A BASELINE IS ATTACHED exactly once, of a YES and a NO book fetched inside the window. */
  lemma AttachesIff(t: Tables, forecast: nat, yes: nat, no: nat, now: int)
    ensures BaselineAttached(t, forecast, yes, no, now).Ok? <==>
            forecast !in t.baselines && InWindow(t, forecast, yes, YES) && InWindow(t, forecast, no, NO)
    ensures BaselineAttached(t, forecast, yes, no, now).Ok? ==>
              BaselineAttached(t, forecast, yes, no, now).value ==
              t.(baselines := t.baselines[forecast := Timely(yes, no, now)])
  {
  }

  /** Portfolios of the forecast's cohort without a decision on it. */
  function Undecided(t: Tables, forecast: nat): set<PortfolioId>
    requires forecast < |t.forecasts|
  {
    set p | p in t.portfolios && t.portfolios[p].cohort == t.forecasts[forecast].body.cohort
      && (p, forecast) !in t.decisions
  }

  /** NO_TIMELY_BASELINE for each of these portfolios. */
  function Defaulted(decisions: map<(PortfolioId, nat), DecisionRow>, portfolios: set<PortfolioId>,
                     forecast: nat, condition: string, now: int): map<(PortfolioId, nat), DecisionRow>
  {
    decisions + map p | p in portfolios :: (p, forecast) := DecisionRow(condition, NoTimely, now)
  }

  function MarkedNoTimely(t: Tables, forecast: nat, now: int): Result<Tables, LedgerError> {
    if !ForecastKnown(t, forecast) then Err(UnknownForecast)
    else if forecast in t.baselines then Err(AlreadyBaselined)
    else if now <= Deadline(t, forecast) then Err(WindowOpen)
    else
      var body := t.forecasts[forecast].body;
      Ok(t.(baselines := t.baselines[forecast := NoTimelyBaseline(now)],
            decisions := if body.kind == Entry
                         then Defaulted(t.decisions, Undecided(t, forecast), forecast, body.condition, now)
                         else t.decisions))
  }

  method MarkNoTimelyBaseline(conn: Connection, forecast: nat, now: int) returns (result: Result<(), LedgerError>)
    modifies conn
    ensures match MarkedNoTimely(old(conn.db), forecast, now)
            case Ok(t) => conn.db == t && result == Ok(())
            case Err(error) => conn.db == old(conn.db) && result == Err(error)
  {
    if !ForecastKnown(conn.db, forecast) {
      return Err(UnknownForecast);
    }
    if forecast in conn.db.baselines {
      return Err(AlreadyBaselined);
    }
    if now <= Deadline(conn.db, forecast) {
      return Err(WindowOpen);
    }
    var body := conn.db.forecasts[forecast].body;
    conn.db := conn.db.(baselines := conn.db.baselines[forecast := NoTimelyBaseline(now)]);
    if body.kind == Entry {
      DefaultUndecided(conn, Undecided(conn.db, forecast), forecast, body.condition, now);
    }
    result := Ok(());
  }

  method DefaultUndecided(conn: Connection, portfolios: set<PortfolioId>, forecast: nat, condition: string, now: int)
    modifies conn
    ensures conn.db ==
            old(conn.db).(decisions := Defaulted(old(conn.db).decisions, portfolios, forecast, condition, now))
  {
    var left := portfolios;
    assert conn.db.decisions == Defaulted(conn.db.decisions, {}, forecast, condition, now);
    while left != {}
      invariant left <= portfolios
      invariant
        conn.db ==
        old(conn.db).(decisions := Defaulted(old(conn.db).decisions, portfolios - left, forecast, condition, now))
      decreases left
    {
      var p :| p in left;
      DefaultedMore(old(conn.db).decisions, portfolios - left, p, forecast, condition, now);
      assert portfolios - (left - {p}) == (portfolios - left) + {p};
      conn.db := conn.db.(decisions := conn.db.decisions[(p, forecast) := DecisionRow(condition, NoTimely, now)]);
      left := left - {p};
    }
    assert portfolios - left == portfolios;
  }

  lemma DefaultedMore(decisions: map<(PortfolioId, nat), DecisionRow>, done: set<PortfolioId>, p: PortfolioId,
                      forecast: nat, condition: string, now: int)
    ensures Defaulted(decisions, done + {p}, forecast, condition, now) ==
            Defaulted(decisions, done, forecast, condition, now)[(p, forecast) := DecisionRow(condition, NoTimely, now)]
  {
  }

  /** A FORECAST IS CLOSED WITHOUT A BASELINE exactly once and only after its window; an entry then gets the default
      decision in every portfolio of its cohort that has none, and no other decision changes. */
  lemma MarksIff(t: Tables, forecast: nat, now: int)
    ensures MarkedNoTimely(t, forecast, now).Ok? <==>
            && forecast < |t.forecasts| && t.forecasts[forecast].body.cohort in t.cohorts && forecast !in t.baselines
            && now - t.forecasts[forecast].body.createdAt
               > t.cohorts[t.forecasts[forecast].body.cohort].window * 1_000_000
    ensures MarkedNoTimely(t, forecast, now).Ok? ==>
              var after, body := MarkedNoTimely(t, forecast, now).value, t.forecasts[forecast].body;
              && after == t.(baselines := t.baselines[forecast := NoTimelyBaseline(now)], decisions := after.decisions)
              && (forall d | d in t.decisions :: d in after.decisions && after.decisions[d] == t.decisions[d])
              && (forall d | d in after.decisions && d !in t.decisions ::
                    && body.kind == Entry && d.1 == forecast && d.0 in t.portfolios
                    && t.portfolios[d.0].cohort == body.cohort
                    && after.decisions[d] == DecisionRow(body.condition, NoTimely, now))
              && (body.kind == Entry ==>
                    forall p | p in t.portfolios && t.portfolios[p].cohort == body.cohort ::
                      (p, forecast) in after.decisions)
  {
  }

  // ---------- resume state ----------

  datatype Step = NeedsBaseline | BaselineExpired | NeedsDecision | Done

  function ResumeStep(t: Tables, forecast: nat, now: int): Step
    requires ForecastKnown(t, forecast)
  {
    if forecast in t.baselines then
      if t.baselines[forecast].NoTimelyBaseline? || t.forecasts[forecast].body.kind == Update then Done
      else if Undecided(t, forecast) != {} then NeedsDecision
      else Done
    else if now > Deadline(t, forecast) then BaselineExpired
    else NeedsBaseline
  }

  /** A forecast is finished when its resume step is DONE, whatever the clock. */
  predicate Finished(t: Tables, forecast: nat)
    requires ForecastKnown(t, forecast)
  {
    ResumeStep(t, forecast, 0) == Done
  }

  /** WHERE A FORECAST STANDS: without a baseline row it needs one until its window has closed; with a timely one an
      entry needs a decision while some portfolio of its cohort has none; otherwise it is done. */
  lemma ResumeStepMeans(t: Tables, forecast: nat, now: int)
    requires ForecastKnown(t, forecast)
    ensures var step, body := ResumeStep(t, forecast, now), t.forecasts[forecast].body;
            var closed := now - body.createdAt > t.cohorts[body.cohort].window * 1_000_000;
            var undecided := exists p :: && p in t.portfolios && t.portfolios[p].cohort == body.cohort
                                         && (p, forecast) !in t.decisions;
            && (step == NeedsBaseline <==> forecast !in t.baselines && !closed)
            && (step == BaselineExpired <==> forecast !in t.baselines && closed)
            && (step == NeedsDecision <==>
                  forecast in t.baselines && t.baselines[forecast].Timely? && body.kind == Entry && undecided)
  {
    if p :| p in t.portfolios && t.portfolios[p].cohort == t.forecasts[forecast].body.cohort
            && (p, forecast) !in t.decisions {
      assert p in Undecided(t, forecast);
    }
    if Undecided(t, forecast) != {} {
      var p :| p in Undecided(t, forecast);
    }
  }

  /** A FORECAST IS FINISHED exactly when it has a baseline row and, unless that row gave up or it is an update, a
      decision in every portfolio of its cohort. */
  lemma FinishedIff(t: Tables, forecast: nat)
    requires ForecastKnown(t, forecast)
    ensures Finished(t, forecast) <==>
            && forecast in t.baselines
            && (t.baselines[forecast].Timely? && t.forecasts[forecast].body.kind == Entry ==>
                  forall p | p in t.portfolios && t.portfolios[p].cohort == t.forecasts[forecast].body.cohort ::
                    (p, forecast) in t.decisions)
  {
    ResumeStepMeans(t, forecast, 0);
  }

  // ---------- stored baselines ----------

  /** (fetch time, id) order of snapshots. */
  predicate Earlier(t: Tables, a: nat, b: nat)
    requires a < |t.snapshots| && b < |t.snapshots|
  {
    t.snapshots[a].fetchedAt < t.snapshots[b].fetchedAt
    || (t.snapshots[a].fetchedAt == t.snapshots[b].fetchedAt && a < b)
  }

  /** Fetched sooner, or at the same time and stored no later. */
  predicate SoonerOf(t: Tables, a: nat, b: nat) {
    a < |t.snapshots| && b < |t.snapshots|
    && t.snapshots[a].fetchedAt <= t.snapshots[b].fetchedAt
    && (t.snapshots[a].fetchedAt == t.snapshots[b].fetchedAt ==> a <= b)
  }

  /** `best` is the earliest timely snapshot of that side among the first `n`, if there is one. */
  ghost predicate EarliestTimely(t: Tables, forecast: nat, side: Side, best: Option<nat>, n: nat)
    requires ForecastKnown(t, forecast) && n <= |t.snapshots|
  {
    match best
    case None => forall s: nat | s < n :: !TimelySnapshot(t, forecast, s, side)
    case Some(b) =>
      b < n && TimelySnapshot(t, forecast, b, side)
      && forall s: nat | s < n && TimelySnapshot(t, forecast, s, side) :: s == b || Earlier(t, b, s)
  }

  /** The earliest stored YES and NO books inside the window: a pair exactly when some stored pair
      could be attached, and then a pair that can. */
  method StoredBaseline(conn: Connection, forecast: nat) returns (pair: Option<(nat, nat)>)
    requires ForecastKnown(conn.db, forecast)
    ensures pair.Some? ==> TimelySnapshot(conn.db, forecast, pair.value.0, YES)
                           && TimelySnapshot(conn.db, forecast, pair.value.1, NO)
                           && EarliestTimely(conn.db, forecast, YES, Some(pair.value.0), |conn.db.snapshots|)
                           && EarliestTimely(conn.db, forecast, NO, Some(pair.value.1), |conn.db.snapshots|)
    ensures pair.Some? ==>
              && (forall s: nat | TimelySnapshot(conn.db, forecast, s, YES) ::
                    SoonerOf(conn.db, pair.value.0, s))
              && (forall s: nat | TimelySnapshot(conn.db, forecast, s, NO) ::
                    SoonerOf(conn.db, pair.value.1, s))
    ensures pair.None? ==> forall yes: nat, no: nat ::
                             !(TimelySnapshot(conn.db, forecast, yes, YES) && TimelySnapshot(conn.db, forecast, no, NO))
  {
    var t := conn.db;
    var yes: Option<nat>, no: Option<nat> := None, None;
    for s := 0 to |t.snapshots|
      invariant EarliestTimely(t, forecast, YES, yes, s)
      invariant EarliestTimely(t, forecast, NO, no, s)
    {
      if TimelySnapshot(t, forecast, s, YES) {
        if yes.None? || Earlier(t, s, yes.value) {
          yes := Some(s);
        }
      } else if TimelySnapshot(t, forecast, s, NO) {
        if no.None? || Earlier(t, s, no.value) {
          no := Some(s);
        }
      }
    }
    pair := if yes.None? || no.None? then None else Some((yes.value, no.value));
  }
}
