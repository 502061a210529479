/** A whole settlement sweep (src/predict_agent/settlement.py:141-213): it never stops on an error, and
    settles exactly the open tickets whose market has a final outcome. */
module Sweeps {
  import opened Prelude
  import opened Settlement
  import opened Schema
  import opened Cash
  import opened Settling
  import opened Invariants
  import opened Reachability
  import opened SettleSteps

  predicate Resolved(t: Tables, k: nat)
    requires k < |t.tickets|
  {
    MarketOutcome(t, t.tickets[k].body.condition).Some?
  }

  /** What a sweep over `ids` has done: those tickets are settled that were, or that are listed and
      resolved; nothing else about any ticket or observation differs. */
  ghost predicate SweptOver(t: Tables, t': Tables, ids: seq<nat>) {
    && t'.observations == t.observations && |t'.tickets| == |t.tickets|
    && forall k: nat | k < |t.tickets| ::
         && t'.tickets[k].body == t.tickets[k].body
         && (t'.tickets[k].status == SettledTicket <==>
               t.tickets[k].status == SettledTicket || (k in ids && Resolved(t, k)))
  }

  /** Why the ticket's market has no final outcome yet, if it has none. */
  function WaitReason(t: Tables, k: nat): Option<Pending>
    requires k < |t.tickets|
  {
    var (g, ambiguous) := Governing(ObservationsOf(t.observations, t.tickets[k].body.condition));
    PendingReason(g, ambiguous)
  }

  /** The open tickets of a list whose market has no final outcome, each with its reason. */
  function Waits(t: Tables, ids: seq<nat>): seq<(nat, Pending)>
    requires KnownIds(t, ids)
  {
    if ids == [] then []
    else
      (if t.tickets[ids[0]].status == OpenTicket && WaitReason(t, ids[0]).Some?
       then [(ids[0], WaitReason(t, ids[0]).value)] else []) + Waits(t, ids[1..])
  }

  lemma ResolvedUnlessWaiting(t: Tables, k: nat)
    requires k < |t.tickets|
    ensures Resolved(t, k) <==> WaitReason(t, k).None?
  {
  }

  /** A sweep changes neither who waits nor why. */
  lemma {:induction false} SameWaits(t: Tables, t': Tables, swept: seq<nat>, ids: seq<nat>)
    requires SweptOver(t, t', swept) && KnownIds(t, ids) && KnownIds(t', ids)
    ensures Waits(t', ids) == Waits(t, ids)
  {
    if ids != [] {
      var k := ids[0];
      ResolvedUnlessWaiting(t, k);
      assert WaitReason(t', k) == WaitReason(t, k);
      assert t'.tickets[k].status == SettledTicket
             <==> t.tickets[k].status == SettledTicket || (k in swept && Resolved(t, k));
      SameWaits(t, t', swept, ids[1..]);
    }
  }

  lemma FateIs(t: Tables, k: nat, now: int)
    requires k < |t.tickets| && TicketSettled(t, k, now).Ok?
    ensures TicketSettled(t, k, now).value.1 ==
            if t.tickets[k].status != OpenTicket then AlreadySettled
            else if WaitReason(t, k).Some? then Waiting(WaitReason(t, k).value)
            else SettledNow
  {
    hide Governing, PendingReason, EntryAppended, SettlementInserted, SettlementOf;
  }

  lemma SettledOne(t: Tables, k: nat, now: int)
    requires Inv(t) && k < |t.tickets|
    ensures TicketSettled(t, k, now).Ok?
    ensures var t' := TicketSettled(t, k, now).value.0;
            Inv(t') && SweptOver(t, t', [k])
  {
    hide AuditClean, TicketSettled, MarketOutcome;
    SettlesExactly(t, k, now);
    SettleInv(t, k, now);
    if TicketSettled(t, k, now).value.1 == SettledNow {
      var s, credit := SettledShape(t, k, now);
      hide Supported;
      OneSettled(t, k, s, credit);
    } else {
      UnsettledSame(t, k, now);
    }
  }

  lemma OneSettled(t: Tables, k: nat, s: SettlementRow, credit: CashEntry)
    requires k < |t.tickets| && Resolved(t, k)
    ensures SweptOver(t, SettledWith(t, k, s, credit), [k])
  {
    hide Resolved;
  }

  lemma SweptMore(t: Tables, mid: Tables, last: Tables, first: seq<nat>, rest: seq<nat>)
    requires SweptOver(t, mid, first) && SweptOver(mid, last, rest)
    ensures SweptOver(t, last, first + rest)
  {
    assert forall k: nat | k < |t.tickets| :: Resolved(mid, k) <==> Resolved(t, k);
    hide Resolved;
  }

  lemma {:induction false} SweepRuns(t: Tables, ids: seq<nat>, summary: Summary, now: int)
    requires Inv(t) && KnownIds(t, ids)
    ensures var (t', found, error) := Swept(t, ids, summary, now);
            error == None && Inv(t') && SweptOver(t, t', ids) && found.pending == summary.pending + Waits(t, ids)
    decreases |ids|
  {
    hide Inv, TicketSettled, WaitReason, Resolved;
    if ids != [] {
      SettledOne(t, ids[0], now);
      FateIs(t, ids[0], now);
      var (mid, fate) := TicketSettled(t, ids[0], now).value;
      assert KnownIds(mid, ids[1..]);
      SweepRuns(mid, ids[1..], Counted(summary, ids[0], fate), now);
      SameWaits(t, mid, [ids[0]], ids[1..]);
      SweptMore(t, mid, Swept(mid, ids[1..], Counted(summary, ids[0], fate), now).0, [ids[0]], ids[1..]);
      assert [ids[0]] + ids[1..] == ids;
    }
  }

  lemma {:induction false} OpenListed(tickets: seq<Ticket>)
    ensures forall k: nat :: k in OpenIds(tickets) <==> k < |tickets| && tickets[k].status == OpenTicket
  {
    if tickets != [] {
      OpenListed(tickets[..|tickets| - 1]);
    }
  }

  lemma NothingToDo(t: Tables, k: nat, now: int)
    requires Inv(t) && k < |t.tickets| && !Resolved(t, k)
    ensures TicketSettled(t, k, now).Ok? && TicketSettled(t, k, now).value.0 == t
    ensures TicketSettled(t, k, now).value.1 != SettledNow
  {
    hide Inv, TicketSettled, MarketOutcome;
    SettlesExactly(t, k, now);
    UnsettledSame(t, k, now);
  }

  lemma {:induction false} NothingToSettle(t: Tables, ids: seq<nat>, summary: Summary, now: int)
    requires Inv(t) && KnownIds(t, ids) && forall i | 0 <= i < |ids| :: !Resolved(t, ids[i])
    ensures var (t', found, error) := Swept(t, ids, summary, now);
            t' == t && found.settled == summary.settled && error == None
    decreases |ids|
  {
    hide Inv, TicketSettled, Resolved;
    if ids != [] {
      NothingToDo(t, ids[0], now);
      assert KnownIds(t, ids[1..]);
      NothingToSettle(t, ids[1..], Counted(summary, ids[0], TicketSettled(t, ids[0], now).value.1), now);
    }
  }

  lemma LeftUnresolved(t: Tables, t': Tables)
    requires SweptOver(t, t', OpenIds(t.tickets))
    ensures forall i | 0 <= i < |OpenIds(t'.tickets)| :: !Resolved(t', OpenIds(t'.tickets)[i])
  {
    OpenListed(t.tickets);
    OpenListed(t'.tickets);
    forall i | 0 <= i < |OpenIds(t'.tickets)|
      ensures !Resolved(t', OpenIds(t'.tickets)[i])
    {
      var k := OpenIds(t'.tickets)[i];
      assert k in OpenIds(t'.tickets);
      SameResolution(t, t', k);
    }
  }

  lemma SameResolution(t: Tables, t': Tables, k: nat)
    requires t'.observations == t.observations && k < |t.tickets| && k < |t'.tickets|
    requires t'.tickets[k].body == t.tickets[k].body
    ensures Resolved(t', k) <==> Resolved(t, k)
  {
  }

  lemma SettledExactly(t: Tables, t': Tables)
    requires SweptOver(t, t', OpenIds(t.tickets))
    ensures forall k: nat | k < |t.tickets| ::
              t'.tickets[k].status == SettledTicket <==> t.tickets[k].status == SettledTicket || Resolved(t, k)
  {
    hide Resolved;
    OpenListed(t.tickets);
  }

  /** AFTER A SWEEP of a reachable ledger a ticket is settled exactly when it was, or when its market has a
      final outcome; the pending list names the open tickets that stay open, with what each waits for; and
      a second sweep settles nothing. */
  lemma SweepSettlesAll(t: Tables, now: int, later: int)
    requires Inv(t)
    ensures KnownIds(t, OpenIds(t.tickets))
    ensures var (t', found, error) := Swept(t, OpenIds(t.tickets), Summary(0, []), now);
            && error == None && Inv(t') && |t'.tickets| == |t.tickets|
            && found.pending == Waits(t, OpenIds(t.tickets))
            && (forall k: nat | k < |t.tickets| ::
                  t'.tickets[k].status == SettledTicket <==> t.tickets[k].status == SettledTicket || Resolved(t, k))
            && KnownIds(t', OpenIds(t'.tickets))
            && (var (again, none, nothing) := Swept(t', OpenIds(t'.tickets), Summary(0, []), later);
                again == t' && none.settled == 0 && nothing == None)
  {
    hide Inv, Resolved, Swept, OpenIds, Waits;
    var start := Summary(0, []);
    var t' := Swept(t, OpenIds(t.tickets), start, now).0;
    SweepRuns(t, OpenIds(t.tickets), start, now);
    assert [] + Waits(t, OpenIds(t.tickets)) == Waits(t, OpenIds(t.tickets));
    SettledExactly(t, t');
    LeftUnresolved(t, t');
    NothingToSettle(t', OpenIds(t'.tickets), start, later);
  }
}
