/** Rows the auditor accepted stay accepted while the ledger only grows around them. */
module Growth {
  import opened Prelude
  import opened Sums
  import opened PolicyParams
  import opened Schema
  import opened Cash
  import opened Cohorts
  import opened Forecasts
  import opened Invariants
  import opened Steps

  lemma ArtifactKept(t: Tables, t': Tables, digest: Digest, kind: ArtifactKind)
    requires Extends(t, t') && IsArtifact(t, digest, kind)
    ensures IsArtifact(t', digest, kind)
  {
  }

  lemma CohortKept(t: Tables, t': Tables, c: CohortId)
    requires Extends(t, t') && c in t.cohorts && CohortClean(t, c)
    requires forall p | p in t'.portfolios && t'.portfolios[p].cohort == c :: p in t.portfolios
    ensures CohortClean(t', c)
  {
    var identity := t.cohorts[c].identity;
    ArtifactKept(t, t', identity.promptHash, PromptArtifact);
    forall p | p in t'.portfolios && t'.portfolios[p].cohort == c
      ensures PortfolioRowClean(t', p, c)
    {
      assert PortfolioRowClean(t, p, c);
      ArtifactKept(t, t', t.portfolios[p].policy, PolicyArtifact);
    }
  }

  lemma TimelyKept(t: Tables, t': Tables, f: nat, s: nat, side: Side)
    requires Extends(t, t') && ForecastKnown(t, f)
    ensures ForecastKnown(t', f) && Deadline(t', f) == Deadline(t, f)
    ensures t'.forecasts[f] == t.forecasts[f]
    ensures TimelySnapshot(t, f, s, side) ==> TimelySnapshot(t', f, s, side)
  {
    assert t'.forecasts[f] == t.forecasts[f];
    assert SameCohort(t.cohorts[t.forecasts[f].body.cohort], t'.cohorts[t.forecasts[f].body.cohort]);
    if s < |t.snapshots| {
      assert t'.snapshots[s] == t.snapshots[s];
    }
  }

  lemma ForecastKept(t: Tables, t': Tables, f: nat)
    requires Extends(t, t') && f < |t.forecasts| && ForecastClean(t, f)
    requires f in t'.baselines ==> f in t.baselines
    ensures f < |t'.forecasts| && ForecastClean(t', f)
  {
    var b := t.forecasts[f].body;
    assert t'.forecasts[f] == t.forecasts[f];
    ArtifactKept(t, t', b.inputHash, ResearchInput);
    ArtifactKept(t, t', b.transcriptHash, ToolTranscript);
    TimelyKept(t, t', f, 0, YES);
    if f in t'.baselines {
      match t.baselines[f] {
        case NoTimelyBaseline(_) =>
        case Timely(yes, no, _) =>
          TimelyKept(t, t', f, yes, YES);
          TimelyKept(t, t', f, no, NO);
      }
    }
  }

  lemma BackingKept(t: Tables, t': Tables, b: TicketBody)
    requires Extends(t, t') && BackedByForecast(t, b)
    ensures BackedByForecast(t', b)
  {
    assert t'.forecasts[b.forecast] == t.forecasts[b.forecast];
  }

  lemma SettlementKept(t: Tables, t': Tables, b: TicketBody, s: SettlementRow)
    requires Extends(t, t') && SettlementClean(t, b, s)
    ensures SettlementClean(t', b, s)
  {
    assert t'.observations[s.observation] == t.observations[s.observation];
  }

  lemma TicketKept(t: Tables, t': Tables, k: nat)
    requires Extends(t, t') && k < |t.tickets| && TicketClean(t, k)
    requires t'.tickets[k] == t.tickets[k]
    requires k in t'.settlements ==> k in t.settlements
    requires Amounts(t'.cash, k, Debit) == Amounts(t.cash, k, Debit)
    requires Amounts(t'.cash, k, Credit) == Amounts(t.cash, k, Credit)
    ensures TicketClean(t', k)
  {
    var row := t.tickets[k];
    BackingKept(t, t', row.body);
    if k in t.settlements {
      SettlementKept(t, t', row.body, t.settlements[k]);
    }
  }

  lemma FillsKept(t: Tables, t': Tables, b: TicketBody)
    requires Extends(t, t') && FillsClean(t, b)
    ensures FillsClean(t', b)
  {
    assert t'.snapshots[b.snapshot] == t.snapshots[b.snapshot];
    assert TicketPolicy(t', b.policy) == TicketPolicy(t, b.policy);
  }

  lemma AllFillsKept(t: Tables, t': Tables)
    requires Extends(t, t') && AllFillsClean(t) && |t'.tickets| == |t.tickets|
    ensures AllFillsClean(t')
  {
    forall k: nat | k < |t'.tickets|
      ensures FillsClean(t', t'.tickets[k].body)
    {
      assert SameTicket(t.tickets[k], t'.tickets[k]);
      FillsKept(t, t', t.tickets[k].body);
    }
  }

  lemma OwnershipKept(t: Tables, t': Tables, p: PortfolioId, rows: seq<CashEntry>)
    requires Extends(t, t') && forall e | e in rows :: OwnsEntry(t, p, e)
    ensures forall e | e in rows :: OwnsEntry(t', p, e)
  {
    forall e | e in rows
      ensures OwnsEntry(t', p, e)
    {
      assert OwnsEntry(t, p, e);
      if e.ticket.Some? {
        assert SameTicket(t.tickets[e.ticket.value], t'.tickets[e.ticket.value]);
      }
    }
  }

  lemma CashKept(t: Tables, t': Tables, p: PortfolioId)
    requires Extends(t, t') && p in t.portfolios && CashClean(t, p)
    requires CashOf(t'.cash, p) == CashOf(t.cash, p)
    ensures CashClean(t', p)
  {
    OwnershipKept(t, t', p, CashOf(t.cash, p));
  }

  /** One backed entry more, and the portfolio's cash is still clean. */
  lemma CashExtended(t: Tables, t': Tables, p: PortfolioId, e: CashEntry)
    requires Extends(t, t') && p in t.portfolios && CashClean(t, p)
    requires CashOf(t'.cash, p) == CashOf(t.cash, p) + [e]
    requires e.kind != Funding && Balance(CashOf(t.cash, p)) + Signed(e) >= 0.0
    requires e.hash == CashHash(p, e.kind, e.amount, e.ticket, e.at, Head(CashOf(t.cash, p)))
    requires OwnsEntry(t', p, e)
    ensures CashClean(t', p)
  {
    var rows := CashOf(t.cash, p);
    OwnershipKept(t, t', p, rows);
    ChainedSnoc(rows, e, p);
    NeverNegativeSnoc(rows, e);
    assert forall i | 1 <= i < |rows + [e]| :: (rows + [e])[i] == if i < |rows| then rows[i] else e;
  }

  lemma NeverNegativeSnoc(rows: seq<CashEntry>, e: CashEntry)
    requires NeverNegative(rows) && Balance(rows) + Signed(e) >= 0.0
    ensures NeverNegative(rows + [e])
  {
    var all := rows + [e];
    SumSnoc(rows, e, SignedAmount());
    forall i | 0 <= i <= |all|
      ensures Balance(all[..i]) >= 0.0
    {
      if i <= |rows| {
        assert all[..i] == rows[..i];
      } else {
        assert all[..i] == all;
      }
    }
  }

  /** A portfolio's cash right after its FUNDING is clean. */
  lemma CashOpened(t: Tables, p: PortfolioId, e: CashEntry)
    requires p in t.portfolios && CashOf(t.cash, p) == [e]
    requires e.kind == Funding && e.ticket.None? && e.amount == t.portfolios[p].bankroll && e.amount >= 0.0
    requires e.hash == CashHash(p, e.kind, e.amount, e.ticket, e.at, Genesis)
    ensures CashClean(t, p)
  {
    NeverNegativeSnoc([], e);
    ChainedSnoc([], e, p);
    assert [] + [e] == [e];
  }

  lemma AmountsSnoc(cash: seq<CashEntry>, e: CashEntry, k: nat, kind: CashKind)
    ensures Amounts(cash + [e], k, kind) ==
            Amounts(cash, k, kind) + (if e.ticket == Some(k) && e.kind == kind then [e.amount] else [])
  {
    assert (cash + [e])[..|cash|] == cash;
  }

  lemma {:induction false} AmountsNone(cash: seq<CashEntry>, k: nat, kind: CashKind)
    requires forall e | e in cash :: !(e.ticket == Some(k) && e.kind == kind)
    ensures Amounts(cash, k, kind) == []
  {
    if cash != [] {
      var init, last := cash[..|cash| - 1], cash[|cash| - 1];
      assert cash == init + [last] && last in cash;
      AmountsNone(init, k, kind);
    }
  }

  lemma {:induction false} AmountsSome(cash: seq<CashEntry>, k: nat, kind: CashKind)
    requires Amounts(cash, k, kind) == []
    ensures !HasEntry(cash, k, kind)
  {
    if cash != [] {
      var init, last := cash[..|cash| - 1], cash[|cash| - 1];
      assert cash == init + [last];
      AmountsSome(init, k, kind);
      assert forall e | e in cash :: e in init || e == last;
    }
  }
}
