/** Every reachable ledger passes the audit, whatever the order of its transactions. */
module Reachability {
  import opened Prelude
  import opened PolicyParams
  import opened Settlement
  import opened Schema
  import opened Cohorts
  import opened Forecasts
  import opened Tickets
  import opened Invariants
  import opened Steps
  import opened Growth

  /** What the auditor does not look at but later transactions rely on. */
  ghost predicate Supported(t: Tables) {
    && CashChecked(t)
    && (forall r | r in t.rules :: r.0 in t.markets)
    && (forall i | 0 <= i < |t.observations| :: t.observations[i].id == i)
    && (forall s | s in t.snapshots :: DistinctAsks(s))
    && (forall f | f in t.forecasts :: ValidForecast(f.body))
    && (forall k: nat | k < |t.tickets| :: t.tickets[k].body.cost >= 0.0 && t.tickets[k].body.shares >= 0.0)
    && (forall c | c in t.cohorts :: t.cohorts[c].bankroll > 0.0)
  }

  ghost predicate Inv(t: Tables) {
    AuditClean(t) && Supported(t)
  }

  // ---------- the audit, part by part ----------

  lemma CohortsKept(t: Tables, t': Tables)
    requires Extends(t, t') && CohortsClean(t)
    requires t'.cohorts.Keys == t.cohorts.Keys && t'.portfolios == t.portfolios
    ensures CohortsClean(t')
  {
    forall c | c in t'.cohorts
      ensures CohortClean(t', c)
    {
      CohortKept(t, t', c);
    }
  }

  lemma CashAllKept(t: Tables, t': Tables)
    requires Extends(t, t') && CashAllClean(t) && t'.portfolios == t.portfolios && t'.cash == t.cash
    ensures CashAllClean(t')
  {
    forall p | p in t'.portfolios
      ensures CashClean(t', p)
    {
      CashKept(t, t', p);
    }
  }

  /** All forecasts stay clean when the newest one, or the one newly given a baseline, is. */
  lemma ForecastsKept(t: Tables, t': Tables, touched: nat)
    requires Extends(t, t') && ForecastsClean(t)
    requires |t'.forecasts| <= |t.forecasts| || (touched == |t.forecasts| && |t'.forecasts| == touched + 1)
    requires forall f | f in t'.baselines && f != touched :: f in t.baselines
    requires touched < |t'.forecasts| ==> ForecastClean(t', touched)
    ensures ForecastsClean(t')
  {
    forall f: nat | f < |t'.forecasts|
      ensures ForecastClean(t', f)
    {
      if f != touched {
        ForecastKept(t, t', f);
      }
    }
  }

  lemma TicketsKept(t: Tables, t': Tables)
    requires Extends(t, t') && TicketsClean(t)
    requires t'.tickets == t.tickets && t'.cash == t.cash && t'.settlements == t.settlements
    ensures TicketsClean(t')
  {
    forall k: nat | k < |t'.tickets|
      ensures TicketClean(t', k)
    {
      TicketKept(t, t', k);
    }
  }

  lemma DecisionsKept(t: Tables, t': Tables)
    requires Extends(t, t') && DecisionsClean(t)
    requires forall d | d in t'.decisions && d !in t.decisions :: DecisionRowClean(t', d)
    ensures DecisionsClean(t')
  {
    forall d | d in t'.decisions
      ensures DecisionRowClean(t', d)
    {
      if d in t.decisions {
        assert DecisionRowClean(t, d);
        assert t'.forecasts[d.1] == t.forecasts[d.1];
      }
    }
  }

  /** Steps that add no cohort, portfolio, ticket, cash or settlement, and no decision on a ticket. */
  ghost predicate Calm(t: Tables, t': Tables) {
    && Extends(t, t')
    && t'.cohorts == t.cohorts && t'.portfolios == t.portfolios && t'.tickets == t.tickets
    && t'.cash == t.cash && t'.settlements == t.settlements
    && (forall d | d in t'.decisions && d !in t.decisions :: DecisionRowClean(t', d) && !t'.decisions[d].kind.Traded?)
  }

  lemma CalmKeepsAudit(t: Tables, t': Tables, touched: nat)
    requires AuditClean(t) && Calm(t, t')
    requires ArtifactsClean(t') && ForeignKeys(t')
    requires |t'.forecasts| <= |t.forecasts| || (touched == |t.forecasts| && |t'.forecasts| == touched + 1)
    requires forall f | f in t'.baselines && f != touched :: f in t.baselines
    requires touched < |t'.forecasts| ==> ForecastClean(t', touched)
    ensures AuditClean(t')
  {
    CohortsKept(t, t');
    CashAllKept(t, t');
    ForecastsKept(t, t', touched);
    TicketsKept(t, t');
    AllFillsKept(t, t');
    DecisionsKept(t, t');
  }

  // ---------- artifacts, markets, books, observations, attempts ----------

  /** Only artifacts, markets, rules, discoveries, books, observations and attempts differ. */
  ghost predicate OutsideLedger(t: Tables, t': Tables) {
    && t'.cohorts == t.cohorts && t'.portfolios == t.portfolios && t'.forecasts == t.forecasts
    && t'.baselines == t.baselines && t'.tickets == t.tickets && t'.decisions == t.decisions
    && t'.cash == t.cash && t'.settlements == t.settlements
  }

  /** What has to be sound about the rows such a step leaves. */
  ghost predicate SoundOutside(t: Tables) {
    && ArtifactsClean(t)
    && (forall r | r in t.rules :: r.0 in t.markets)
    && (forall i | 0 <= i < |t.observations| :: t.observations[i].id == i)
    && (forall s | s in t.snapshots :: DistinctAsks(s))
    && (forall a | a in t.attempts :: a.cohort in t.cohorts)
  }

  lemma InvSoundOutside(t: Tables)
    requires Inv(t)
    ensures SoundOutside(t)
  {
  }

  lemma OutsideForeignKeys(t: Tables, t': Tables)
    requires Extends(t, t') && OutsideLedger(t, t') && SoundOutside(t') && ForeignKeys(t)
    ensures ForeignKeys(t')
  {
  }

  lemma OutsideSupported(t: Tables, t': Tables)
    requires OutsideLedger(t, t') && SoundOutside(t') && Supported(t)
    ensures Supported(t')
  {
  }

  lemma OutsideInv(t: Tables, t': Tables)
    requires Inv(t) && Extends(t, t') && OutsideLedger(t, t') && SoundOutside(t')
    ensures Inv(t')
  {
    OutsideForeignKeys(t, t');
    OutsideSupported(t, t');
    CalmKeepsAudit(t, t', |t.forecasts|);
  }

  lemma ArtifactAdded(t: Tables, artifact: Artifact)
    requires SoundOutside(t) && Sha(artifact.content) !in t.artifacts
    ensures var t' := t.(artifacts := t.artifacts[Sha(artifact.content) := artifact]);
            Extends(t, t') && OutsideLedger(t, t') && SoundOutside(t')
  {
  }

  lemma NothingChanged(t: Tables)
    ensures Extends(t, t) && OutsideLedger(t, t)
  {
  }

  lemma ArtifactStoredSound(t: Tables, kind: ArtifactKind, content: Content)
    requires SoundOutside(t)
    ensures var t' := Committed(t, ArtifactStored(t, kind, content));
            Extends(t, t') && OutsideLedger(t, t') && SoundOutside(t')
  {
    hide Extends, OutsideLedger, SoundOutside;
    NothingChanged(t);
    if Sha(content) !in t.artifacts {
      ArtifactAdded(t, Artifact(kind, content));
    }
  }

  lemma MarketListedSound(t: Tables, condition: string, market: Market, endDate: Option<int>)
    requires SoundOutside(t)
    ensures var t' := MarketListed(t, condition, market, endDate);
            Extends(t, t') && OutsideLedger(t, t') && SoundOutside(t')
  {
  }

  lemma SnapshotStoredSound(t: Tables, snapshot: Snapshot)
    requires SoundOutside(t) && DistinctAsks(snapshot)
    ensures var t' := t.(snapshots := t.snapshots + [snapshot]);
            Extends(t, t') && OutsideLedger(t, t') && SoundOutside(t')
  {
  }

  lemma ObservedSound(t: Tables, o: Observation)
    requires SoundOutside(t)
    ensures var t' := t.(observations := t.observations + [o.(id := |t.observations|)]);
            Extends(t, t') && OutsideLedger(t, t') && SoundOutside(t')
  {
  }

  lemma AttemptsExtend(t: Tables, attempts: seq<Attempt>)
    requires |t.attempts| <= |attempts|
    requires forall a: nat | a < |t.attempts| :: t.attempts[a].status == Started || attempts[a] == t.attempts[a]
    ensures Extends(t, t.(attempts := attempts))
  {
  }

  lemma AttemptsSound(t: Tables, attempts: seq<Attempt>)
    requires SoundOutside(t)
    requires forall a | a in attempts :: a.cohort in t.cohorts
    ensures var t' := t.(attempts := attempts);
            OutsideLedger(t, t') && SoundOutside(t')
  {
  }

  /** Attempts appended or one STARTED attempt closed: every attempt keeps its cohort. */
  lemma AttemptsKnown(t: Tables, attempt: nat, status: AttemptStatus)
    requires attempt < |t.attempts| && SoundOutside(t)
    ensures forall a | a in t.attempts[attempt := t.attempts[attempt].(status := status)] :: a.cohort in t.cohorts
  {
    assert t.attempts[attempt] in t.attempts;
  }

  lemma AttemptStartedSound(t: Tables, cohort: CohortId, condition: string, kind: Kind, now: int)
    requires SoundOutside(t)
    ensures var t' := Committed(t, AttemptStarted(t, cohort, condition, kind, now));
            Extends(t, t') && OutsideLedger(t, t') && SoundOutside(t')
  {
    var t' := Committed(t, AttemptStarted(t, cohort, condition, kind, now));
    assert forall a | a in t'.attempts :: a.cohort in t.cohorts;
    hide Extends, SoundOutside, OutsideLedger;
    AttemptsExtend(t, t'.attempts);
    AttemptsSound(t, t'.attempts);
    assert t' == t.(attempts := t'.attempts);
  }

  lemma AttemptFailedSound(t: Tables, attempt: nat, cost: real, error: string, now: int)
    requires SoundOutside(t)
    ensures var t' := Committed(t, AttemptFailed(t, attempt, cost, error, now));
            Extends(t, t') && OutsideLedger(t, t') && SoundOutside(t')
  {
    hide Extends, SoundOutside, OutsideLedger;
    var r := AttemptFailed(t, attempt, cost, error, now);
    if r.Ok? {
      AttemptsKnown(t, attempt, Failed(now, cost, error));
      AttemptsExtend(t, r.value.attempts);
      AttemptsSound(t, r.value.attempts);
    } else {
      NothingChanged(t);
    }
  }

  // ---------- forecasts and baselines ----------

  lemma ForecastRecordedExtends(t: Tables, b: ForecastBody)
    requires ForecastRecorded(t, b).Ok?
    ensures Extends(t, ForecastRecorded(t, b).value)
  {
    hide ValidForecast, HasEntryForecast, CohortActive;
  }

  lemma ForecastRecordedParts(t: Tables, b: ForecastBody)
    requires ForecastRecorded(t, b).Ok? && ForeignKeys(t)
    ensures var t' := ForecastRecorded(t, b).value;
            && Extends(t, t') && Calm(t, t') && ForeignKeys(t')
            && ForecastClean(t', |t.forecasts|)
  {
    hide Extends, ValidForecast, HasEntryForecast;
    ForecastRecordedExtends(t, b);
    assert t.attempts[b.attempt] in t.attempts;
  }

  lemma ForecastRecordedSupported(t: Tables, b: ForecastBody)
    requires ForecastRecorded(t, b).Ok? && Supported(t)
    ensures Supported(ForecastRecorded(t, b).value)
  {
  }

  lemma ForecastRecordedInv(t: Tables, b: ForecastBody)
    requires Inv(t) && ForecastRecorded(t, b).Ok?
    ensures Inv(ForecastRecorded(t, b).value)
  {
    ForecastRecordedParts(t, b);
    ForecastRecordedSupported(t, b);
    CalmKeepsAudit(t, ForecastRecorded(t, b).value, |t.forecasts|);
  }

  /** The tables after setting forecast `f`'s baseline and adding decisions. */
  function BaselineSet(t: Tables, f: nat, baseline: Baseline, decisions: map<(PortfolioId, nat), DecisionRow>): Tables {
    t.(baselines := t.baselines[f := baseline], decisions := decisions)
  }

  ghost predicate AddsUntraded(t: Tables, decisions: map<(PortfolioId, nat), DecisionRow>) {
    && (forall d | d in t.decisions :: d in decisions && decisions[d] == t.decisions[d])
    && (forall d | d in decisions && d !in t.decisions :: DecisionRowClean(t, d) && !decisions[d].kind.Traded?)
  }

  lemma BaselineSetExtends(t: Tables, f: nat, baseline: Baseline, decisions: map<(PortfolioId, nat), DecisionRow>)
    requires AddsUntraded(t, decisions) && (f in t.baselines ==> t.baselines[f] == baseline)
    ensures Extends(t, BaselineSet(t, f, baseline, decisions))
  {
    hide DecisionRowClean;
  }

  lemma BaselineSetParts(t: Tables, f: nat, baseline: Baseline, decisions: map<(PortfolioId, nat), DecisionRow>)
    requires ForeignKeys(t) && Supported(t) && f < |t.forecasts| && AddsUntraded(t, decisions)
    requires f in t.baselines ==> t.baselines[f] == baseline
    ensures var t' := BaselineSet(t, f, baseline, decisions);
            Extends(t, t') && Calm(t, t') && ForeignKeys(t') && Supported(t')
  {
    hide Extends;
    BaselineSetExtends(t, f, baseline, decisions);
  }

  lemma BaselineSetInv(t: Tables, f: nat, baseline: Baseline, decisions: map<(PortfolioId, nat), DecisionRow>)
    requires Inv(t) && f < |t.forecasts| && AddsUntraded(t, decisions)
    requires f in t.baselines ==> t.baselines[f] == baseline
    requires var t' := BaselineSet(t, f, baseline, decisions); ForecastClean(t', f)
    ensures Inv(BaselineSet(t, f, baseline, decisions))
  {
    BaselineSetParts(t, f, baseline, decisions);
    CalmKeepsAudit(t, BaselineSet(t, f, baseline, decisions), f);
  }

  lemma BaselineAttachedInv(t: Tables, f: nat, yes: nat, no: nat, now: int)
    requires Inv(t) && BaselineAttached(t, f, yes, no, now).Ok?
    ensures Inv(BaselineAttached(t, f, yes, no, now).value)
  {
    var t' := BaselineAttached(t, f, yes, no, now).value;
    assert ForecastClean(t, f);
    BaselineSetClean(t, f, Timely(yes, no, now), t.decisions);
    BaselineSetInv(t, f, Timely(yes, no, now), t.decisions);
    assert t' == BaselineSet(t, f, Timely(yes, no, now), t.decisions);
  }

  lemma BaselineSetClean(t: Tables, f: nat, baseline: Baseline, decisions: map<(PortfolioId, nat), DecisionRow>)
    requires f < |t.forecasts| && ForecastClean(t, f)
    requires baseline.Timely? ==> TimelySnapshot(t, f, baseline.yes, YES) && TimelySnapshot(t, f, baseline.no, NO)
    ensures ForecastClean(BaselineSet(t, f, baseline, decisions), f)
  {
  }

  lemma DefaultedAddsUntraded(t: Tables, f: nat, now: int)
    requires f < |t.forecasts| && t.forecasts[f].body.kind == Entry
    ensures AddsUntraded(t, Defaulted(t.decisions, Undecided(t, f), f, t.forecasts[f].body.condition, now))
  {
  }

  lemma MarkedNoTimelyShape(t: Tables, f: nat, now: int)
    requires MarkedNoTimely(t, f, now).Ok?
    ensures f < |t.forecasts| && f !in t.baselines
    ensures var t' := MarkedNoTimely(t, f, now).value;
            t' == BaselineSet(t, f, NoTimelyBaseline(now), t'.decisions) && AddsUntraded(t, t'.decisions)
  {
    hide AddsUntraded;
    if t.forecasts[f].body.kind == Entry {
      DefaultedAddsUntraded(t, f, now);
    } else {
      NothingAdded(t);
    }
  }

  lemma NothingAdded(t: Tables)
    ensures AddsUntraded(t, t.decisions)
  {
  }

  lemma MarkedNoTimelyInv(t: Tables, f: nat, now: int)
    requires Inv(t) && MarkedNoTimely(t, f, now).Ok?
    ensures Inv(MarkedNoTimely(t, f, now).value)
  {
    hide AddsUntraded, MarkedNoTimely;
    var t' := MarkedNoTimely(t, f, now).value;
    MarkedNoTimelyShape(t, f, now);
    assert ForecastClean(t, f);
    BaselineSetClean(t, f, NoTimelyBaseline(now), t'.decisions);
    BaselineSetInv(t, f, NoTimelyBaseline(now), t'.decisions);
  }

  lemma RefusalAddsUntraded(t: Tables, p: PortfolioId, f: nat, code: RefusalCode, now: int)
    requires RefusalRecorded(t, p, f, code, now).Ok?
    ensures AddsUntraded(t, RefusalRecorded(t, p, f, code, now).value.decisions)
    ensures RefusalRecorded(t, p, f, code, now).value ==
            BaselineSet(t, f, t.baselines[f], RefusalRecorded(t, p, f, code, now).value.decisions)
  {
    assert t.baselines[f := t.baselines[f]] == t.baselines;
  }

  lemma RefusalInv(t: Tables, p: PortfolioId, f: nat, code: RefusalCode, now: int)
    requires Inv(t) && RefusalRecorded(t, p, f, code, now).Ok?
    ensures Inv(RefusalRecorded(t, p, f, code, now).value)
  {
    assert ForecastClean(t, f);
    RefusalAddsUntraded(t, p, f, code, now);
    var decisions := RefusalRecorded(t, p, f, code, now).value.decisions;
    BaselineSetClean(t, f, t.baselines[f], decisions);
    BaselineSetInv(t, f, t.baselines[f], decisions);
  }
}
