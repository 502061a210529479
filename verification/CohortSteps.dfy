/** Opening a cohort keeps the ledger audit-clean. While its portfolios are being inserted the audit
    holds of everything but the new cohort, whose portfolio rows are right so far. */
module CohortSteps {
  import opened Prelude
  import opened Schema
  import opened Cash
  import opened Cohorts
  import opened Forecasts
  import opened Invariants
  import opened Steps
  import opened Growth
  import opened Reachability

  ghost predicate CohortsCleanBut(t: Tables, c: CohortId) {
    forall d | d in t.cohorts && d != c :: CohortClean(t, d)
  }

  ghost predicate AuditBut(t: Tables, c: CohortId) {
    && ArtifactsClean(t) && ForeignKeys(t) && OneActive(t) && CohortsCleanBut(t, c) && CashAllClean(t)
    && ForecastsClean(t) && TicketsClean(t) && AllFillsClean(t) && DecisionsClean(t)
  }

  /** The new cohort's own row, and the portfolio rows inserted for it so far. */
  ghost predicate Taking(t: Tables, c: CohortId, bankroll: real) {
    && c in t.cohorts
    && (var row := t.cohorts[c];
        && CohortHash(row.identity) == c && row.identity.window == row.window && row.bankroll == bankroll
        && ArtifactsStored(t, row.identity))
    && forall p | p in t.portfolios && t.portfolios[p].cohort == c :: PortfolioRowClean(t, p, c)
  }

  ghost predicate Inserted(t: Tables, c: CohortId, v: Variant) {
    PortfolioHash(c, v.name) in t.portfolios && t.portfolios[PortfolioHash(c, v.name)].cohort == c
  }

  ghost predicate Opening(t: Tables, c: CohortId, bankroll: real) {
    AuditBut(t, c) && Taking(t, c, bankroll) && Supported(t)
  }

  // ---------- the cohort row ----------

  lemma CohortInsertedExtends(t: Tables, identity: Identity, bankroll: real)
    requires CohortHash(identity) !in t.cohorts
    ensures Extends(t, CohortInserted(t, identity, bankroll))
  {
  }

  lemma CohortInsertedOthers(t: Tables, identity: Identity, bankroll: real)
    requires CohortHash(identity) !in t.cohorts && CohortsClean(t)
    ensures CohortsCleanBut(CohortInserted(t, identity, bankroll), CohortHash(identity))
  {
    hide CohortClean, Extends;
    var t' := CohortInserted(t, identity, bankroll);
    CohortInsertedExtends(t, identity, bankroll);
    forall d | d in t'.cohorts && d != CohortHash(identity)
      ensures CohortClean(t', d)
    {
      CohortKept(t, t', d);
    }
  }

  lemma CohortInsertedRows(t: Tables, identity: Identity, bankroll: real)
    requires CohortHash(identity) !in t.cohorts && ForeignKeys(t) && Supported(t) && bankroll > 0.0
    requires ArtifactsStored(t, identity)
    ensures var t' := CohortInserted(t, identity, bankroll);
            ForeignKeys(t') && OneActive(t') && Supported(t') && Taking(t', CohortHash(identity), bankroll)
  {
  }

  lemma CohortInsertedOpening(t: Tables, identity: Identity, bankroll: real)
    requires Inv(t) && CohortHash(identity) !in t.cohorts && bankroll > 0.0 && ArtifactsStored(t, identity)
    ensures Opening(CohortInserted(t, identity, bankroll), CohortHash(identity), bankroll)
  {
    hide Supported, CohortsClean, CohortsCleanBut, CashAllClean, ForecastsClean, TicketsClean, AllFillsClean,
         DecisionsClean, Extends, Taking, ForeignKeys, OneActive;
    var t' := CohortInserted(t, identity, bankroll);
    CohortInsertedExtends(t, identity, bankroll);
    CohortInsertedOthers(t, identity, bankroll);
    CohortInsertedRows(t, identity, bankroll);
    CashAllKept(t, t');
    ForecastsKept(t, t', |t.forecasts|);
    TicketsKept(t, t');
    AllFillsKept(t, t');
    DecisionsKept(t, t');
  }

  // ---------- one portfolio ----------

  /** The tables after one portfolio's row and its FUNDING. */
  function FundedWith(t: Tables, c: CohortId, v: Variant, bankroll: real, funding: CashEntry): Tables {
    PortfolioInserted(t, c, v, bankroll).(cash := t.cash + [funding])
  }

  ghost predicate Funds(t: Tables, c: CohortId, v: Variant, bankroll: real, funding: CashEntry) {
    && c in t.cohorts && t.cohorts[c].bankroll == bankroll && bankroll > 0.0
    && v in t.cohorts[c].identity.portfolios && IsArtifact(t, v.policy, PolicyArtifact)
    && PortfolioHash(c, v.name) !in t.portfolios
    && CashOf(t.cash, PortfolioHash(c, v.name)) == []
    && funding.portfolio == PortfolioHash(c, v.name) && funding.kind == Funding && funding.amount == bankroll
    && funding.ticket == None
    && funding.hash == CashHash(funding.portfolio, Funding, bankroll, None, funding.at, Genesis)
  }

  lemma FundedExtends(t: Tables, c: CohortId, v: Variant, bankroll: real, funding: CashEntry)
    requires Funds(t, c, v, bankroll, funding)
    ensures Extends(t, FundedWith(t, c, v, bankroll, funding))
  {
  }

  lemma FundedForeignKeys(t: Tables, c: CohortId, v: Variant, bankroll: real, funding: CashEntry)
    requires Funds(t, c, v, bankroll, funding) && ForeignKeys(t)
    ensures ForeignKeys(FundedWith(t, c, v, bankroll, funding))
  {
  }

  lemma FundedOthers(t: Tables, c: CohortId, v: Variant, bankroll: real, funding: CashEntry)
    requires Funds(t, c, v, bankroll, funding) && CohortsCleanBut(t, c)
    ensures CohortsCleanBut(FundedWith(t, c, v, bankroll, funding), c)
  {
    hide CohortClean, Extends;
    var t' := FundedWith(t, c, v, bankroll, funding);
    FundedExtends(t, c, v, bankroll, funding);
    forall d | d in t'.cohorts && d != c
      ensures CohortClean(t', d)
    {
      CohortKept(t, t', d);
    }
  }

  lemma FundedTaking(t: Tables, c: CohortId, v: Variant, bankroll: real, funding: CashEntry)
    requires Funds(t, c, v, bankroll, funding) && Taking(t, c, bankroll)
    ensures Taking(FundedWith(t, c, v, bankroll, funding), c, bankroll)
  {
    var t' := FundedWith(t, c, v, bankroll, funding);
    forall p | p in t'.portfolios && t'.portfolios[p].cohort == c
      ensures PortfolioRowClean(t', p, c)
    {
      if p in t.portfolios {
        assert PortfolioRowClean(t, p, c);
      }
    }
  }

  lemma FundedCash(t: Tables, c: CohortId, v: Variant, bankroll: real, funding: CashEntry)
    requires Funds(t, c, v, bankroll, funding) && CashAllClean(t)
    ensures CashAllClean(FundedWith(t, c, v, bankroll, funding))
  {
    var t' := FundedWith(t, c, v, bankroll, funding);
    FundedExtends(t, c, v, bankroll, funding);
    forall p | p in t'.portfolios
      ensures CashClean(t', p)
    {
      hide CashClean, Extends;
      CashOfSnoc(t.cash, funding, p);
      if p == funding.portfolio {
        assert [] + [funding] == [funding];
        CashOpened(t', p, funding);
      } else {
        assert CashOf(t.cash, p) + [] == CashOf(t.cash, p);
        CashKept(t, t', p);
      }
    }
  }

  lemma FundedTickets(t: Tables, c: CohortId, v: Variant, bankroll: real, funding: CashEntry)
    requires Funds(t, c, v, bankroll, funding) && TicketsClean(t)
    ensures TicketsClean(FundedWith(t, c, v, bankroll, funding))
  {
    var t' := FundedWith(t, c, v, bankroll, funding);
    FundedExtends(t, c, v, bankroll, funding);
    forall k: nat | k < |t'.tickets|
      ensures TicketClean(t', k)
    {
      hide TicketClean, Extends;
      AmountsSnoc(t.cash, funding, k, Debit);
      AmountsSnoc(t.cash, funding, k, Credit);
      assert Amounts(t.cash, k, Debit) + [] == Amounts(t.cash, k, Debit);
      assert Amounts(t.cash, k, Credit) + [] == Amounts(t.cash, k, Credit);
      TicketKept(t, t', k);
    }
  }

  lemma FundedSupported(t: Tables, c: CohortId, v: Variant, bankroll: real, funding: CashEntry)
    requires Funds(t, c, v, bankroll, funding) && Supported(t)
    ensures Supported(FundedWith(t, c, v, bankroll, funding))
  {
  }

  lemma FundedOpening(t: Tables, c: CohortId, v: Variant, bankroll: real, funding: CashEntry)
    requires Opening(t, c, bankroll) && Funds(t, c, v, bankroll, funding)
    ensures Opening(FundedWith(t, c, v, bankroll, funding), c, bankroll)
  {
    hide Supported, CohortsCleanBut, CashAllClean, ForecastsClean, TicketsClean, AllFillsClean, DecisionsClean,
         Extends, Taking, ForeignKeys, Funds;
    var t' := FundedWith(t, c, v, bankroll, funding);
    FundedExtends(t, c, v, bankroll, funding);
    FundedForeignKeys(t, c, v, bankroll, funding);
    FundedOthers(t, c, v, bankroll, funding);
    FundedTaking(t, c, v, bankroll, funding);
    FundedCash(t, c, v, bankroll, funding);
    FundedTickets(t, c, v, bankroll, funding);
    FundedSupported(t, c, v, bankroll, funding);
    ForecastsKept(t, t', |t.forecasts|);
    AllFillsKept(t, t');
    DecisionsKept(t, t');
  }

  /** The next variant's portfolio, as `Funded` inserts it. */
  lemma FundedShape(t: Tables, c: CohortId, variants: seq<Variant>, bankroll: real, now: int)
    returns (funding: CashEntry)
    requires variants != [] && Funded(t, c, variants, bankroll, now).Ok? && Taking(t, c, bankroll)
    requires forall v | v in variants :: v in t.cohorts[c].identity.portfolios
    ensures Funds(t, c, variants[0], bankroll, funding)
    ensures Funded(t, c, variants, bankroll, now) ==
            Funded(FundedWith(t, c, variants[0], bankroll, funding), c, variants[1..], bankroll, now)
  {
    var id := PortfolioHash(c, variants[0].name);
    funding := NextEntry(PortfolioInserted(t, c, variants[0], bankroll), id, Funding, bankroll, None, now);
  }

  lemma {:induction false} FundedClean(t: Tables, c: CohortId, variants: seq<Variant>, bankroll: real, now: int)
    requires Opening(t, c, bankroll) && Funded(t, c, variants, bankroll, now).Ok?
    requires forall v | v in variants :: v in t.cohorts[c].identity.portfolios
    ensures var t' := Funded(t, c, variants, bankroll, now).value;
            && Opening(t', c, bankroll) && t'.cohorts == t.cohorts
            && (forall v | v in variants || Inserted(t, c, v) :: Inserted(t', c, v))
    decreases |variants|
  {
    hide AuditBut, Supported, PortfolioRowClean, ArtifactsStored, EntryAppended;
    if variants != [] {
      var funding := FundedShape(t, c, variants, bankroll, now);
      FundedOpening(t, c, variants[0], bankroll, funding);
      var t1 := FundedWith(t, c, variants[0], bankroll, funding);
      FundedClean(t1, c, variants[1..], bankroll, now);
      assert Inserted(t1, c, variants[0]);
      assert forall v | v in variants :: v == variants[0] || v in variants[1..];
    }
  }

  /** With every declared variant inserted the new cohort is clean too. */
  lemma OpeningDone(t: Tables, c: CohortId, bankroll: real)
    requires Opening(t, c, bankroll)
    requires forall v | v in t.cohorts[c].identity.portfolios :: Inserted(t, c, v)
    ensures Inv(t)
  {
    hide Supported, CashAllClean, ForecastsClean, TicketsClean, AllFillsClean, DecisionsClean, ForeignKeys;
    assert CohortClean(t, c);
  }

  lemma CohortEnsuredInv(t: Tables, identity: Identity, bankroll: real, now: int)
    requires Inv(t) && CohortEnsured(t, identity, bankroll, now).Ok?
    ensures Inv(CohortEnsured(t, identity, bankroll, now).value)
  {
    hide Inv, Opening, Funded;
    var c := CohortHash(identity);
    if c !in t.cohorts {
      var t1 := CohortInserted(t, identity, bankroll);
      CohortInsertedOpening(t, identity, bankroll);
      FundedClean(t1, c, identity.portfolios, bankroll, now);
      OpeningDone(Funded(t1, c, identity.portfolios, bankroll, now).value, c, bankroll);
    }
  }

  lemma EnsuredCohort(t: Tables, identity: Identity, bankroll: real, now: int)
    requires Inv(t) && CohortEnsured(t, identity, bankroll, now).Ok?
    ensures var c, t' := CohortHash(identity), CohortEnsured(t, identity, bankroll, now).value;
            CohortActive(t', c) && t'.cohorts[c].bankroll == bankroll && t'.cohorts[c].identity == identity
  {
    hide Funded, ArtifactsStored, ValidIdentity, Opening;
    var c := CohortHash(identity);
    if c !in t.cohorts {
      CohortInsertedOpening(t, identity, bankroll);
      FundedClean(CohortInserted(t, identity, bankroll), c, identity.portfolios, bankroll, now);
    } else {
      CohortNamed(t, c);
    }
  }

  lemma CohortNamed(t: Tables, c: CohortId)
    requires Inv(t) && c in t.cohorts
    ensures CohortHash(t.cohorts[c].identity) == c
  {
    hide Supported, CashAllClean, ForecastsClean, TicketsClean, AllFillsClean, DecisionsClean, ForeignKeys;
    assert CohortClean(t, c);
  }

  lemma FundedOnce(t: Tables, c: CohortId)
    requires Inv(t) && c in t.cohorts
    ensures forall v | v in t.cohorts[c].identity.portfolios ::
              Inserted(t, c, v) && FundedOnceFirst(CashOf(t.cash, PortfolioHash(c, v.name)), t.cohorts[c].bankroll)
  {
    hide Supported, ForecastsClean, TicketsClean, AllFillsClean, DecisionsClean, ForeignKeys;
    assert CohortClean(t, c);
    forall v | v in t.cohorts[c].identity.portfolios
      ensures Inserted(t, c, v) && FundedOnceFirst(CashOf(t.cash, PortfolioHash(c, v.name)), t.cohorts[c].bankroll)
    {
      assert PortfolioRowClean(t, PortfolioHash(c, v.name), c);
      assert CashClean(t, PortfolioHash(c, v.name));
    }
  }

  lemma OnlyActive(t: Tables, c: CohortId)
    requires Inv(t) && CohortActive(t, c)
    ensures forall d | d in t.cohorts && d != c :: t.cohorts[d].status == ClosedCohort
  {
    hide Supported, CohortsClean, CashAllClean, ForecastsClean, TicketsClean, AllFillsClean, DecisionsClean,
         ForeignKeys;
  }

  /** An ensured cohort is the one active cohort, at the asked bankroll, with every declared portfolio
      funded once; whatever was active before is closed. */
  lemma EnsuredIsActive(t: Tables, identity: Identity, bankroll: real, now: int)
    requires Inv(t) && CohortEnsured(t, identity, bankroll, now).Ok?
    ensures var c, t' := CohortHash(identity), CohortEnsured(t, identity, bankroll, now).value;
            && CohortActive(t', c) && t'.cohorts[c].bankroll == bankroll && t'.cohorts[c].identity == identity
            && (forall d | d in t'.cohorts && d != c :: t'.cohorts[d].status == ClosedCohort)
            && (forall v | v in identity.portfolios ::
                  Inserted(t', c, v) && FundedOnceFirst(CashOf(t'.cash, PortfolioHash(c, v.name)), bankroll))
  {
    hide Inv, CohortEnsured, Inserted, FundedOnceFirst;
    var c, t' := CohortHash(identity), CohortEnsured(t, identity, bankroll, now).value;
    CohortEnsuredInv(t, identity, bankroll, now);
    EnsuredCohort(t, identity, bankroll, now);
    OnlyActive(t', c);
    FundedOnce(t', c);
  }
}
