/** Content-addressed artifacts (src/predict_agent/artifacts.py) and cohorts with their funded
    portfolios (src/predict_agent/cohorts.py). */
module Cohorts {
  import opened Prelude
  import opened Schema
  import opened Cash

  function ArtifactStored(t: Tables, kind: ArtifactKind, content: Content): Result<Tables, LedgerError> {
    var digest := Sha(content);
    if digest !in t.artifacts then Ok(t.(artifacts := t.artifacts[digest := Artifact(kind, content)]))
    else if t.artifacts[digest].kind != kind then Err(MissingArtifact)
    else Ok(t)
  }

  /** CONTENT IS STORED ONCE, under its digest, as one kind: again as that kind changes nothing, as another it is
      refused. */
  lemma StoresIff(t: Tables, kind: ArtifactKind, content: Content)
    ensures ArtifactStored(t, kind, content).Ok? <==>
            Sha(content) in t.artifacts ==> t.artifacts[Sha(content)].kind == kind
    ensures ArtifactStored(t, kind, content).Ok? ==>
              var after := ArtifactStored(t, kind, content).value;
              && (Sha(content) in t.artifacts ==> after == t)
              && (Sha(content) !in t.artifacts ==>
                    after == t.(artifacts := t.artifacts[Sha(content) := Artifact(kind, content)]))
  {
  }

  predicate IsArtifact(t: Tables, digest: Digest, kind: ArtifactKind) {
    digest in t.artifacts && t.artifacts[digest].kind == kind
  }

  /** A lower-case letter and up to 31 more lower-case letters, digits or underscores; the pattern's `$`
      also lets one final newline through (src/predict_agent/cohorts.py:28). */
  predicate VariantName(name: string) {
    var core := if name != "" && name[|name| - 1] == '\n' then name[..|name| - 1] else name;
    && 1 <= |core| <= 32 && 'a' <= core[0] <= 'z'
    && forall c | c in core :: 'a' <= c <= 'z' || '0' <= c <= '9' || c == '_'
  }

  predicate ValidIdentity(identity: Identity) {
    && (exists v | v in identity.portfolios :: v.name == "primary")
    && (forall v | v in identity.portfolios :: VariantName(v.name))
    && identity.modelId != "" && identity.scoringVersion != ""
    && identity.window > 0 && identity.generation >= 1
  }

  predicate ArtifactsStored(t: Tables, identity: Identity) {
    && IsArtifact(t, identity.promptHash, PromptArtifact)
    && forall v | v in identity.portfolios :: IsArtifact(t, v.policy, PolicyArtifact)
  }

  /** Every ACTIVE cohort closed. */
  function AllClosed(cohorts: map<CohortId, Cohort>): map<CohortId, Cohort> {
    map c | c in cohorts :: cohorts[c].(status := ClosedCohort)
  }

  function CohortInserted(t: Tables, identity: Identity, bankroll: real): Tables {
    var active := Cohort(identity, bankroll, identity.window, ActiveCohort);
    t.(cohorts := AllClosed(t.cohorts)[CohortHash(identity) := active])
  }

  function PortfolioInserted(t: Tables, cohort: CohortId, variant: Variant, bankroll: real): Tables {
    t.(portfolios := t.portfolios[PortfolioHash(cohort, variant.name) :=
                       Portfolio(cohort, variant.name, variant.policy, bankroll)])
  }

  /** Each variant's portfolio, inserted and funded in order. */
  function Funded(t: Tables, cohort: CohortId, variants: seq<Variant>, bankroll: real, now: int)
    : Result<Tables, LedgerError>
    decreases |variants|
  {
    if variants == [] then Ok(t)
    else
      var id := PortfolioHash(cohort, variants[0].name);
      if id in t.portfolios then Err(InvalidIdentity)
      else match EntryAppended(PortfolioInserted(t, cohort, variants[0], bankroll), id, Funding, bankroll, None, now)
        case Err(error) => Err(error)
        case Ok(paid) => Funded(paid, cohort, variants[1..], bankroll, now)
  }

  function CohortEnsured(t: Tables, identity: Identity, bankroll: real, now: int): Result<Tables, LedgerError> {
    var id := CohortHash(identity);
    if bankroll <= 0.0 then Err(InvalidAmount)
    else if !ValidIdentity(identity) then Err(InvalidIdentity)
    else if !ArtifactsStored(t, identity) then Err(MissingArtifact)
    else if id in t.cohorts then
      if t.cohorts[id].status == ClosedCohort then Err(ClosedIdentity)
      else if t.cohorts[id].bankroll != bankroll then Err(DifferentBankroll)
      else Ok(t)
    else Funded(CohortInserted(t, identity, bankroll), id, identity.portfolios, bankroll, now)
  }

  /** One lower-case letter and up to 31 more lower-case letters, digits or underscores. */
  predicate Slug(core: string) {
    && 1 <= |core| <= 32 && 'a' <= core[0] <= 'z'
    && forall c | c in core :: 'a' <= c <= 'z' || '0' <= c <= '9' || c == '_'
  }

  /** A VARIANT'S NAME is a slug, or a slug and one final newline. */
  lemma VariantNameIff(name: string)
    ensures VariantName(name) <==> Slug(name) || exists core :: Slug(core) && name == core + "\n"
  {
    if name != "" {
      var init := name[..|name| - 1];
      assert name == init + [name[|name| - 1]];
      assert name[|name| - 1] in name;
      if core :| Slug(core) && name == core + "\n" {
        assert core == init;
      }
    }
  }

  /** The identity declares a primary portfolio, well-named variants, a model and a scoring version, and its prompt and
      policies are stored as such. */
  ghost predicate IdentityUsable(t: Tables, identity: Identity) {
    && (exists v | v in identity.portfolios :: v.name == "primary")
    && (forall v | v in identity.portfolios ::
          Slug(v.name) || exists core :: Slug(core) && v.name == core + "\n")
    && identity.modelId != "" && identity.scoringVersion != "" && identity.window >= 1 && identity.generation >= 1
    && identity.promptHash in t.artifacts && t.artifacts[identity.promptHash].kind == PromptArtifact
    && forall v | v in identity.portfolios ::
         v.policy in t.artifacts && t.artifacts[v.policy].kind == PolicyArtifact
  }

  /** WHICH IDENTITY GIVES A COHORT: a usable one with a positive bankroll; a known one only while its cohort is active
      and at its own bankroll, and then nothing changes; a new one closes the active cohort and funds its portfolios. */
  lemma EnsuresMeans(t: Tables, identity: Identity, bankroll: real, now: int)
    ensures var result, id := CohortEnsured(t, identity, bankroll, now), CohortHash(identity);
            && (result.Ok? ==> bankroll > 0.0 && IdentityUsable(t, identity))
            && (bankroll > 0.0 && IdentityUsable(t, identity) && id in t.cohorts ==>
                  && (result.Ok? <==> t.cohorts[id].status == ActiveCohort && t.cohorts[id].bankroll == bankroll)
                  && (result.Ok? ==> result.value == t))
            && (bankroll > 0.0 && IdentityUsable(t, identity) && id !in t.cohorts ==>
                  result == Funded(CohortInserted(t, identity, bankroll), id, identity.portfolios, bankroll, now))
  {
    forall name
      ensures VariantName(name) <==> Slug(name) || exists core :: Slug(core) && name == core + "\n"
    {
      VariantNameIff(name);
    }
    hide VariantName, Slug, Funded;
  }

  method EnsureCohort(conn: Connection, identity: Identity, bankroll: real, now: int)
    returns (result: Result<CohortId, LedgerError>)
    modifies conn
    ensures match CohortEnsured(old(conn.db), identity, bankroll, now)
            case Ok(t) => conn.db == t && result == Ok(CohortHash(identity))
            case Err(error) => conn.db == old(conn.db) && result == Err(error)
  {
    var id := CohortHash(identity);
    if bankroll <= 0.0 {
      return Err(InvalidAmount);
    }
    if !ValidIdentity(identity) {
      return Err(InvalidIdentity);
    }
    if !ArtifactsStored(conn.db, identity) {
      return Err(MissingArtifact);
    }
    if id in conn.db.cohorts {
      if conn.db.cohorts[id].status == ClosedCohort {
        return Err(ClosedIdentity);
      }
      if conn.db.cohorts[id].bankroll != bankroll {
        return Err(DifferentBankroll);
      }
      return Ok(id);
    }
    var began := conn.db;
    CloseActive(conn);
    conn.db := conn.db.(cohorts := conn.db.cohorts[id := Cohort(identity, bankroll, identity.window, ActiveCohort)]);
    var funded := FundPortfolios(conn, id, identity.portfolios, bankroll, now);
    if funded.Err? {
      conn.db := began;
      return Err(funded.error);
    }
    result := Ok(id);
  }

  method FundPortfolios(conn: Connection, cohort: CohortId, variants: seq<Variant>, bankroll: real, now: int)
    returns (result: Result<(), LedgerError>)
    modifies conn
    ensures match Funded(old(conn.db), cohort, variants, bankroll, now)
            case Ok(t) => conn.db == t && result == Ok(())
            case Err(error) => result == Err(error)
  {
    var i := 0;
    while i < |variants|
      invariant 0 <= i <= |variants|
      invariant Funded(old(conn.db), cohort, variants, bankroll, now)
                == Funded(conn.db, cohort, variants[i..], bankroll, now)
    {
      var variant := variants[i];
      assert variants[i..][1..] == variants[i + 1..];
      var portfolio := PortfolioHash(cohort, variant.name);
      if portfolio in conn.db.portfolios {
        return Err(InvalidIdentity);
      }
      conn.db := PortfolioInserted(conn.db, cohort, variant, bankroll);
      var funded := AppendCashEntry(conn, portfolio, Funding, bankroll, None, now);
      if funded.Err? {
        return Err(funded.error);
      }
      i := i + 1;
    }
    result := Ok(());
  }

  method CloseActive(conn: Connection)
    modifies conn
    ensures conn.db == old(conn.db).(cohorts := AllClosed(old(conn.db).cohorts))
  {
    var active := set c | c in conn.db.cohorts && conn.db.cohorts[c].status == ActiveCohort;
    while active != {}
      invariant conn.db == old(conn.db).(cohorts := conn.db.cohorts)
      invariant conn.db.cohorts.Keys == old(conn.db).cohorts.Keys && active <= conn.db.cohorts.Keys
      invariant forall c | c in conn.db.cohorts ::
                  if c in active then conn.db.cohorts[c] == old(conn.db).cohorts[c]
                  else conn.db.cohorts[c] == old(conn.db).cohorts[c].(status := ClosedCohort)
      decreases active
    {
      var c :| c in active;
      conn.db := conn.db.(cohorts := conn.db.cohorts[c := conn.db.cohorts[c].(status := ClosedCohort)]);
      active := active - {c};
    }
    assert conn.db.cohorts == AllClosed(old(conn.db).cohorts);
  }
}
