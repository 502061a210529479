/** Choosing the observation that settles a market (src/predict_agent/settlement.py:55-138). Each
    observation's evidence was gathered over an interval of time; the governing one finished last,
    and evidence that disagrees while overlapping it makes the market wait. */
module Settlement {
  import opened Prelude
  import opened PolicyParams

  datatype Status = Initialized | Posed | Active | Resolved | OtherStatus(name: string)
  datatype Outcome = OutYes | OutNo | OutHalf | OutUnknown
  datatype CrossCheck = Confirmed | Unchecked | Mismatch | NotApplicable

  datatype Observation = Observation(
    id: nat,
    condition: string,
    requestedAt: Option<int>,
    fetchedAt: int,
    gammaFetchedAt: Option<int>,
    status: Status,
    outcome: Option<Outcome>,
    crossCheck: CrossCheck)

  predicate IsOpenStatus(s: Status) { s.Initialized? || s.Posed? || s.Active? }

  predicate Settleable(o: Outcome) { o != OutUnknown }

  function PayoutPerShare(held: Side, outcome: Outcome): real
    requires Settleable(outcome)
  {
    match outcome
    case OutHalf => 0.5
    case OutYes => if held == YES then 1.0 else 0.0
    case OutNo => if held == NO then 1.0 else 0.0
  }

  datatype Evidence = Evidence(status: Status, outcome: Option<Outcome>, crossCheck: CrossCheck)

  function EvidenceOf(row: Observation): Evidence {
    Evidence(row.status, row.outcome, row.crossCheck)
  }

  function MaxInt(a: int, b: int): int { if a >= b then a else b }

  function End(row: Observation): int {
    if row.gammaFetchedAt.Some? then MaxInt(row.fetchedAt, row.gammaFetchedAt.value) else row.fetchedAt
  }

  function Start(row: Observation): int {
    if row.requestedAt.Some? then row.requestedAt.value else row.fetchedAt
  }

  function LatestEnd(rows: seq<Observation>): (e: int)
    requires rows != []
    ensures exists r :: r in rows && End(r) == e
    ensures forall r | r in rows :: End(r) <= e
  {
    if |rows| == 1 then assert rows[0] in rows; End(rows[0])
    else
      var rest := LatestEnd(rows[1..]);
      assert exists r :: r in rows[1..] && End(r) == rest;
      if End(rows[0]) >= rest then assert rows[0] in rows; End(rows[0]) else rest
  }

  function EndingAt(rows: seq<Observation>, end: int): (r: seq<Observation>)
    ensures forall x :: x in r <==> x in rows && End(x) == end
  {
    if rows == [] then []
    else (if End(rows[0]) == end then [rows[0]] else []) + EndingAt(rows[1..], end)
  }

  predicate Agree(rows: seq<Observation>) {
    forall x, y | x in rows && y in rows :: EvidenceOf(x) == EvidenceOf(y)
  }

  /** The observation with the lowest id. */
  function LowestId(rows: seq<Observation>): (r: Observation)
    requires rows != []
    ensures r in rows && forall x | x in rows :: r.id <= x.id
  {
    if |rows| == 1 then rows[0]
    else
      var rest := LowestId(rows[1..]);
      if rows[0].id <= rest.id then rows[0] else rest
  }

  /** The observation that started last, the lowest id among ties. */
  function LatestStart(rows: seq<Observation>): (r: Observation)
    requires rows != []
    ensures r in rows
    ensures forall x | x in rows :: Start(x) <= Start(r) && (Start(x) == Start(r) ==> r.id <= x.id)
  {
    if |rows| == 1 then rows[0]
    else
      var rest := LatestStart(rows[1..]);
      if Start(rows[0]) > Start(rest) || (Start(rows[0]) == Start(rest) && rows[0].id <= rest.id) then rows[0] else rest
  }

  /** Some observation with other evidence ended after `g` began. */
  predicate Contradicted(rows: seq<Observation>, g: Observation) {
    exists row | row in rows :: EvidenceOf(row) != EvidenceOf(g) && End(row) >= Start(g)
  }

  /** Which of the last-ending candidates governs, and whether that is ambiguous. */
  function Verdict(rows: seq<Observation>, candidates: seq<Observation>): (r: (Observation, bool))
    requires candidates != []
    ensures r.0 in candidates
  {
    if !Agree(candidates) then (LowestId(candidates), true)
    else
      var g := LatestStart(candidates);
      (g, Contradicted(rows, g))
  }

  /** The governing observation, and whether the order of evidence is ambiguous. */
  function Governing(rows: seq<Observation>): (r: (Option<Observation>, bool))
    ensures r.0.Some? ==> r.0.value in rows
    ensures r.0.Some? <==> rows != []
  {
    if rows == [] then (None, false)
    else
      var candidates := EndingAt(rows, LatestEnd(rows));
      assert candidates != [];
      var (g, ambiguous) := Verdict(rows, candidates);
      (Some(g), ambiguous)
  }

  datatype Pending = AwaitingResolution | AwaitingConfirmation | AmbiguousEvidence | Unsettleable

  function PendingReason(g: Option<Observation>, ambiguous: bool): Option<Pending> {
    if g == None then Some(AwaitingResolution)
    else if ambiguous then Some(AmbiguousEvidence)
    else if g.value.status != Resolved then Some(AwaitingResolution)
    else if g.value.crossCheck == Unchecked then Some(AwaitingConfirmation)
    else if g.value.crossCheck != Confirmed || g.value.outcome == None || !Settleable(g.value.outcome.value)
    then Some(Unsettleable)
    else None
  }

  function FinalOutcome(rows: seq<Observation>): (r: Option<Outcome>)
    ensures r.Some? ==> Settleable(r.value)
  {
    var (g, ambiguous) := Governing(rows);
    if PendingReason(g, ambiguous).Some? then None else g.value.outcome
  }

  // ---------- what the rule depends on ----------

  /** One piece of evidence and when it was gathered: a row without its id. */
  datatype Fact = Fact(start: int, end: int, evidence: Evidence)

  function FactOf(row: Observation): Fact {
    Fact(Start(row), End(row), EvidenceOf(row))
  }

  ghost function Facts(rows: seq<Observation>): set<Fact> {
    set row | row in rows :: FactOf(row)
  }

  /** `g` finished last among the facts, and started last among those. */
  ghost predicate Governs(g: Fact, facts: set<Fact>) {
    && g in facts
    && (forall f | f in facts :: f.end <= g.end)
    && (forall f | f in facts && f.end == g.end :: f.start <= g.start)
  }

  /** `g` governs and nothing that ended at or after its start disagrees with it. */
  ghost predicate Decides(g: Fact, facts: set<Fact>) {
    Governs(g, facts) && forall f | f in facts && (f.end >= g.start || f.end == g.end) :: f.evidence == g.evidence
  }

  lemma FactKnown(rows: seq<Observation>, row: Observation)
    requires row in rows
    ensures FactOf(row) in Facts(rows)
  {
  }

  /** A deciding fact is that of a last-ending row, and every such row agrees with it. */
  lemma DeciderEndsLast(rows: seq<Observation>, f: Fact) returns (w: Observation)
    requires rows != [] && Decides(f, Facts(rows))
    ensures w in EndingAt(rows, LatestEnd(rows)) && FactOf(w) == f
    ensures forall x | x in EndingAt(rows, LatestEnd(rows)) :: EvidenceOf(x) == f.evidence && Start(x) <= f.start
  {
    var latest := LatestEnd(rows);
    w :| w in rows && FactOf(w) == f;
    var last :| last in rows && End(last) == latest;
    FactKnown(rows, last);
    forall x | x in EndingAt(rows, latest)
      ensures EvidenceOf(x) == f.evidence && Start(x) <= f.start
    {
      FactKnown(rows, x);
    }
  }

  /** If some fact decides, the governing observation is unambiguous. */
  lemma DecidedIsUnambiguous(rows: seq<Observation>, f: Fact)
    requires rows != [] && Decides(f, Facts(rows))
    ensures !Governing(rows).1
  {
    var w := DeciderEndsLast(rows, f);
    var g := LatestStart(EndingAt(rows, LatestEnd(rows)));
    forall row | row in rows && End(row) >= Start(g)
      ensures EvidenceOf(row) == EvidenceOf(g)
    {
      FactKnown(rows, row);
    }
  }

  /** An unambiguous governing observation is a row of the deciding fact. */
  lemma UnambiguousDecides(rows: seq<Observation>)
    requires rows != [] && !Governing(rows).1
    ensures Decides(FactOf(Governing(rows).0.value), Facts(rows))
  {
    var g := Governing(rows).0.value;
    var fact := FactOf(g);
    forall f | f in Facts(rows)
      ensures f.end <= fact.end
      ensures f.end == fact.end ==> f.start <= fact.start
      ensures f.end >= fact.start || f.end == fact.end ==> f.evidence == fact.evidence
    {
      var row :| row in rows && FactOf(row) == f;
      if f.end == fact.end {
        assert row in EndingAt(rows, LatestEnd(rows));
      }
    }
  }

  /** The rule in terms of facts alone. */
  lemma GoverningByFacts(rows: seq<Observation>)
    requires rows != []
    ensures !Governing(rows).1 <==> exists f :: Decides(f, Facts(rows))
    ensures !Governing(rows).1 ==> Decides(FactOf(Governing(rows).0.value), Facts(rows))
  {
    if f :| Decides(f, Facts(rows)) {
      DecidedIsUnambiguous(rows, f);
    }
    if !Governing(rows).1 {
      UnambiguousDecides(rows);
    }
  }

  lemma DeciderUnique(f: Fact, g: Fact, facts: set<Fact>)
    requires Decides(f, facts) && Decides(g, facts)
    ensures f == g
  {
  }

  /** A final outcome exists exactly when one fact governs, is resolved and confirmed with that
      outcome, and everything gathered since it began says the same. */
  lemma FinalOutcomeIff(rows: seq<Observation>, outcome: Outcome)
    requires Settleable(outcome)
    ensures FinalOutcome(rows) == Some(outcome) <==>
            exists g :: Decides(g, Facts(rows)) && g.evidence == Evidence(Resolved, Some(outcome), Confirmed)
  {
    NoRowsNoFacts(rows);
    if rows != [] {
      GoverningByFacts(rows);
      if !Governing(rows).1 {
        var decider := FactOf(Governing(rows).0.value);
        OutcomeOfDecider(rows);
        if f :| Decides(f, Facts(rows)) && f.evidence == Evidence(Resolved, Some(outcome), Confirmed) {
          DeciderUnique(f, decider, Facts(rows));
        }
      }
    }
  }

  lemma NoRowsNoFacts(rows: seq<Observation>)
    ensures rows == [] <==> Facts(rows) == {}
  {
    if rows != [] {
      assert FactOf(rows[0]) in Facts(rows);
    }
  }

  lemma OutcomeOfDecider(rows: seq<Observation>)
    requires rows != [] && !Governing(rows).1
    ensures var e := FactOf(Governing(rows).0.value).evidence;
            FinalOutcome(rows) ==
            if e.status == Resolved && e.crossCheck == Confirmed && e.outcome.Some? && Settleable(e.outcome.value)
            then e.outcome else None
  {
    hide Governing;
  }

  /** THE OUTCOME DEPENDS ONLY ON THE FACTS: not on insertion order, ids or repeated observations. */
  lemma OutcomeFromFacts(rows: seq<Observation>, other: seq<Observation>)
    requires Facts(rows) == Facts(other)
    ensures Governing(rows).1 == Governing(other).1
    ensures FinalOutcome(rows) == FinalOutcome(other)
  {
    hide Facts, Decides, FactOf, PendingReason, Verdict;
    NoRowsNoFacts(rows);
    NoRowsNoFacts(other);
    if rows != [] {
      hide Governing, FinalOutcome;
      GoverningByFacts(rows);
      GoverningByFacts(other);
      if Governing(rows).1 {
        AmbiguousHasNone(rows);
        AmbiguousHasNone(other);
      } else {
        DeciderUnique(FactOf(Governing(rows).0.value), FactOf(Governing(other).0.value), Facts(rows));
        OutcomeOfDecider(rows);
        OutcomeOfDecider(other);
      }
    }
  }

  lemma AmbiguousHasNone(rows: seq<Observation>)
    requires rows != [] && Governing(rows).1
    ensures FinalOutcome(rows) == None
  {
    hide Governing;
  }

  /** Any reordering and renumbering of a market's observations settles it the same way. */
  lemma OutcomeOrderIndependent(rows: seq<Observation>, other: seq<Observation>)
    requires |rows| == |other|
    requires multiset(Unnumbered(rows)) == multiset(Unnumbered(other))
    ensures Governing(rows).1 == Governing(other).1
    ensures FinalOutcome(rows) == FinalOutcome(other)
  {
    UnnumberedFacts(rows, other);
    UnnumberedFacts(other, rows);
    OutcomeFromFacts(rows, other);
  }

  /** The rows with their ids erased. */
  function Unnumbered(rows: seq<Observation>): seq<Observation> {
    seq(|rows|, i requires 0 <= i < |rows| => rows[i].(id := 0))
  }

  lemma UnnumberedFacts(rows: seq<Observation>, other: seq<Observation>)
    requires multiset(Unnumbered(rows)) == multiset(Unnumbered(other))
    ensures Facts(rows) <= Facts(other)
  {
    forall row | row in rows
      ensures FactOf(row) in Facts(other)
    {
      var i :| 0 <= i < |rows| && rows[i] == row;
      assert Unnumbered(rows)[i] in multiset(Unnumbered(other));
      assert Unnumbered(rows)[i] in Unnumbered(other);
      var j :| 0 <= j < |other| && Unnumbered(other)[j] == Unnumbered(rows)[i];
      assert FactOf(other[j]) == FactOf(row);
    }
  }

  // ---------- the rule in the rows' own columns ----------

  /** Some part of the row's evidence, its resolution or its Gamma fetch, was gathered then or later. */
  predicate SeenSince(row: Observation, at: int) {
    row.fetchedAt >= at || (row.gammaFetchedAt.Some? && row.gammaFetchedAt.value >= at)
  }

  /** No part of the row's evidence was gathered after the last part of `g`'s. */
  predicate NotLater(row: Observation, g: Observation) {
    SeenSince(g, row.fetchedAt) && (row.gammaFetchedAt.Some? ==> SeenSince(g, row.gammaFetchedAt.value))
  }

  /** Some part of the row's evidence was gathered at or after `g`'s request, or at or after its resolution
      fetch where no request time was kept. */
  predicate Overlaps(row: Observation, g: Observation) {
    match g.requestedAt
    case Some(requested) => SeenSince(row, requested)
    case None => SeenSince(row, g.fetchedAt)
  }

  predicate SameReport(row: Observation, g: Observation) {
    row.status == g.status && row.outcome == g.outcome && row.crossCheck == g.crossCheck
  }

  lemma IntervalColumns(row: Observation, g: Observation)
    ensures NotLater(row, g) <==> End(row) <= End(g)
    ensures Overlaps(row, g) <==> End(row) >= Start(g)
    ensures SameReport(row, g) <==> EvidenceOf(row) == EvidenceOf(g)
  {
  }

  ghost predicate SeenLast(rows: seq<Observation>, g: Observation) {
    g in rows && forall row | row in rows :: NotLater(row, g)
  }

  lemma SeenLastEnds(rows: seq<Observation>, g: Observation)
    requires rows != []
    ensures SeenLast(rows, g) <==> g in EndingAt(rows, LatestEnd(rows))
  {
    forall row | row in rows
      ensures NotLater(row, g) <==> End(row) <= End(g)
    {
      IntervalColumns(row, g);
    }
  }

  /** WHICH OBSERVATION GOVERNS: one seen last. Where all of those agree it is the one requested last, and the
      lowest id among those; where they do not it is the lowest id. */
  lemma GoverningRow(rows: seq<Observation>)
    requires rows != []
    ensures var g := Governing(rows).0.value;
            && SeenLast(rows, g)
            && ((forall a, b | SeenLast(rows, a) && SeenLast(rows, b) :: SameReport(a, b)) ==>
                  forall row | SeenLast(rows, row) ::
                    Start(row) <= Start(g) && (Start(row) == Start(g) ==> g.id <= row.id))
    ensures (exists a, b :: SeenLast(rows, a) && SeenLast(rows, b) && !SameReport(a, b)) ==>
              forall row | SeenLast(rows, row) :: Governing(rows).0.value.id <= row.id
  {
    LastSeenAgree(rows);
    forall row
      ensures SeenLast(rows, row) <==> row in EndingAt(rows, LatestEnd(rows))
    {
      SeenLastEnds(rows, row);
    }
    hide SeenLast, LatestEnd, EndingAt, SameReport, Start;
  }

  lemma LastSeenAgree(rows: seq<Observation>)
    requires rows != []
    ensures Agree(EndingAt(rows, LatestEnd(rows))) <==>
            forall a, b | SeenLast(rows, a) && SeenLast(rows, b) :: SameReport(a, b)
  {
    hide SeenLast, LatestEnd, EndingAt, SameReport, EvidenceOf, NotLater, Overlaps, Start, End;
    var last := EndingAt(rows, LatestEnd(rows));
    forall a, b | SeenLast(rows, a) && SeenLast(rows, b)
      ensures a in last && b in last && (SameReport(a, b) <==> EvidenceOf(a) == EvidenceOf(b))
    {
      SeenLastEnds(rows, a);
      SeenLastEnds(rows, b);
      IntervalColumns(a, b);
    }
    forall a | a in last
      ensures SeenLast(rows, a)
    {
      SeenLastEnds(rows, a);
    }
  }

  /** WHEN THE EVIDENCE IS AMBIGUOUS: exactly when two observations seen last report differently, or one that
      reports otherwise was fetched or Gamma-fetched at or after the governing one's request. */
  lemma AmbiguousIff(rows: seq<Observation>)
    requires rows != []
    ensures var g := Governing(rows).0.value;
            Governing(rows).1 <==>
              || (exists a, b :: SeenLast(rows, a) && SeenLast(rows, b) && !SameReport(a, b))
              || (exists row :: row in rows && Overlaps(row, g) && !SameReport(row, g))
  {
    LastSeenAgree(rows);
    var g := Governing(rows).0.value;
    forall row
      ensures Overlaps(row, g) <==> End(row) >= Start(g)
      ensures SameReport(row, g) <==> EvidenceOf(row) == EvidenceOf(g)
    {
      IntervalColumns(row, g);
    }
    hide LatestEnd, EndingAt, Start, End, SeenLast, EvidenceOf, SameReport, Overlaps;
    if !Agree(EndingAt(rows, LatestEnd(rows))) {
      var a, b :| SeenLast(rows, a) && SeenLast(rows, b) && !SameReport(a, b);
    }
  }

  /** The row is resolved and confirmed with this outcome, nothing was seen later, and whatever reports otherwise
      was last seen before this row's request and before its own last fetch. */
  ghost predicate Settles(rows: seq<Observation>, g: Observation, outcome: Outcome) {
    && g.status == Resolved && g.outcome == Some(outcome) && g.crossCheck == Confirmed
    && SeenLast(rows, g)
    && forall row | row in rows && !SameReport(row, g) :: !Overlaps(row, g) && !NotLater(g, row)
  }

  /** THE FINAL OUTCOME in the rows' own columns: YES, NO or a half exactly when some observation settles it. */
  lemma FinalOutcomeByColumns(rows: seq<Observation>, outcome: Outcome)
    requires outcome == OutYes || outcome == OutNo || outcome == OutHalf
    ensures FinalOutcome(rows) == Some(outcome) <==> exists g :: Settles(rows, g, outcome)
    ensures FinalOutcome(rows) != Some(OutUnknown)
  {
    FinalOutcomeIff(rows, outcome);
    if FinalOutcome(rows) == Some(outcome) {
      var f :| Decides(f, Facts(rows)) && f.evidence == Evidence(Resolved, Some(outcome), Confirmed);
      var g :| g in rows && FactOf(g) == f;
      DeciderSettles(rows, g, outcome);
    }
    if g :| Settles(rows, g, outcome) {
      var latest := SettlerDecides(rows, g, outcome);
    }
  }

  lemma DeciderSettles(rows: seq<Observation>, g: Observation, outcome: Outcome)
    requires g in rows && Decides(FactOf(g), Facts(rows))
    requires EvidenceOf(g) == Evidence(Resolved, Some(outcome), Confirmed)
    ensures Settles(rows, g, outcome)
  {
    forall row | row in rows
      ensures NotLater(row, g) && (!SameReport(row, g) ==> !Overlaps(row, g) && !NotLater(g, row))
    {
      FactKnown(rows, row);
      IntervalColumns(row, g);
      IntervalColumns(g, row);
    }
  }

  lemma SettlerDecides(rows: seq<Observation>, g: Observation, outcome: Outcome) returns (latest: Observation)
    requires Settles(rows, g, outcome)
    ensures latest in rows && Decides(FactOf(latest), Facts(rows))
    ensures EvidenceOf(latest) == Evidence(Resolved, Some(outcome), Confirmed)
  {
    SeenLastEnds(rows, g);
    var last := EndingAt(rows, LatestEnd(rows));
    latest := LatestStart(last);
    forall row | row in rows
      ensures End(row) <= End(latest)
      ensures End(row) >= Start(latest) || End(row) == End(latest) ==> EvidenceOf(row) == EvidenceOf(g)
      ensures End(row) == End(latest) ==> Start(row) <= Start(latest)
    {
      IntervalColumns(row, g);
      IntervalColumns(g, row);
      assert End(row) == End(latest) ==> row in last;
    }
  }

  /** WHAT A MARKET WAITS FOR, by its governing observation. */
  lemma PendingMeans(g: Observation, ambiguous: bool)
    ensures PendingReason(None, ambiguous) == Some(AwaitingResolution)
    ensures var reason := PendingReason(Some(g), ambiguous);
            var known := g.outcome == Some(OutYes) || g.outcome == Some(OutNo) || g.outcome == Some(OutHalf);
            && (reason == Some(AmbiguousEvidence) <==> ambiguous)
            && (reason == Some(AwaitingResolution) <==> !ambiguous && g.status != Resolved)
            && (reason == Some(AwaitingConfirmation) <==>
                  !ambiguous && g.status == Resolved && g.crossCheck == Unchecked)
            && (reason == None <==> !ambiguous && g.status == Resolved && g.crossCheck == Confirmed && known)
  {
  }

  lemma {:induction false} EndingAtAppend(rows: seq<Observation>, row: Observation, end: int)
    ensures EndingAt(rows + [row], end) == EndingAt(rows, end) + if End(row) == end then [row] else []
  {
    if rows == [] {
      assert rows + [row] == [row];
    } else {
      assert (rows + [row])[1..] == rows[1..] + [row];
      EndingAtAppend(rows[1..], row, end);
    }
  }

  lemma LatestEndAppend(rows: seq<Observation>, row: Observation)
    ensures LatestEnd(rows + [row]) == if rows == [] then End(row) else MaxInt(LatestEnd(rows), End(row))
  {
    var all := rows + [row];
    assert row in all;
    if rows != [] {
      var last :| last in rows && End(last) == LatestEnd(rows);
      assert last in all;
      var r :| r in all && End(r) == LatestEnd(all);
      assert r in rows || r == row;
    }
  }

  lemma ContradictedAppend(rows: seq<Observation>, row: Observation, g: Observation)
    ensures Contradicted(rows + [row], g) <==>
            Contradicted(rows, g) || (EvidenceOf(row) != EvidenceOf(g) && End(row) >= Start(g))
  {
    var all := rows + [row];
    assert row in all;
    if r :| r in all && EvidenceOf(r) != EvidenceOf(g) && End(r) >= Start(g) {
      assert r in rows || r == row;
    }
    if r :| r in rows && EvidenceOf(r) != EvidenceOf(g) && End(r) >= Start(g) {
      assert r in all;
    }
  }

  lemma CandidatesKept(rows: seq<Observation>, late: Observation)
    requires rows != [] && End(late) < LatestEnd(rows)
    ensures EndingAt(rows + [late], LatestEnd(rows + [late])) == EndingAt(rows, LatestEnd(rows))
  {
    var candidates := EndingAt(rows, LatestEnd(rows));
    LatestEndAppend(rows, late);
    EndingAtAppend(rows, late, LatestEnd(rows));
    assert candidates + [] == candidates;
  }

  lemma VerdictKept(rows: seq<Observation>, late: Observation, candidates: seq<Observation>)
    requires candidates != [] && End(late) < Start(Verdict(rows, candidates).0)
    ensures Verdict(rows + [late], candidates) == Verdict(rows, candidates)
  {
    ContradictedAppend(rows, late, LatestStart(candidates));
  }

  /** An observation that ended before the governing one began, and before it ended, changes nothing. */
  lemma LateArrivalOfOldEvidence(rows: seq<Observation>, late: Observation)
    requires rows != []
    requires End(late) < Start(Governing(rows).0.value) && End(late) < LatestEnd(rows)
    ensures Governing(rows + [late]) == Governing(rows)
    ensures FinalOutcome(rows + [late]) == FinalOutcome(rows)
  {
    CandidatesKept(rows, late);
    VerdictKept(rows, late, EndingAt(rows, LatestEnd(rows)));
  }

  /** An observation that began after every other one ended governs, unambiguously. */
  lemma NewestEvidenceGoverns(rows: seq<Observation>, newest: Observation)
    requires forall row | row in rows :: End(row) < Start(newest)
    requires Start(newest) <= End(newest)
    ensures Governing(rows + [newest]) == (Some(newest), false)
  {
    NewestIsAlone(rows, newest);
    ContradictedAppend(rows, newest, newest);
    assert !Contradicted(rows, newest);
    assert Verdict(rows + [newest], [newest]) == (newest, false);
  }

  lemma NewestIsAlone(rows: seq<Observation>, newest: Observation)
    requires forall row | row in rows :: End(row) < End(newest)
    ensures EndingAt(rows + [newest], LatestEnd(rows + [newest])) == [newest]
  {
    LatestEndAppend(rows, newest);
    if rows != [] {
      var last :| last in rows && End(last) == LatestEnd(rows);
    }
    EndingAtAppend(rows, newest, End(newest));
    NoneEndingAt(rows, End(newest));
    assert [] + [newest] == [newest];
  }

  lemma {:induction false} NoneEndingAt(rows: seq<Observation>, end: int)
    requires forall row | row in rows :: End(row) != end
    ensures EndingAt(rows, end) == []
  {
    if rows != [] {
      NoneEndingAt(rows[1..], end);
    }
  }
}
