/** Construction and re-checking of trade tickets (src/japan_agent/risk/engine.py) under the default
    risk policy. Both checks grow a list of violations and refuse when it is not empty. */
module RiskEngine {
  import opened Prelude
  import opened Time
  import opened Reals
  import opened Sums

  datatype Action = Buy | Sell | Hold
  datatype Sleeve = Core | Satellite | Frontier
  datatype InstrumentType = Stock | Etf | OtherType(name: string)

  datatype InstrumentRule = InstrumentRule(
    ticker: string, sleeve: Sleeve, kind: InstrumentType, maxFraction: real, maxGbp: Option<real>)

  datatype PriceSnapshot = PriceSnapshot(ticker: string, nativePrice: real, priceGbp: real, observedAt: int)

  datatype Position = Position(ticker: string, quantity: real, value: real)

  datatype Portfolio = Portfolio(cash: real, positions: seq<Position>) {
    function Nav(): real { cash + SumOf(positions, (p: Position) => p.value) }

    function PositionIn(ticker: string): Position { FirstPosition(positions, ticker) }
  }

  function FirstPosition(positions: seq<Position>, ticker: string): (p: Position)
    ensures p.ticker == ticker
  {
    if positions == [] then Position(ticker, 0.0, 0.0)
    else if positions[0].ticker == ticker then positions[0]
    else FirstPosition(positions[1..], ticker)
  }

  datatype Decision = Decision(
    action: Action, instrument: string, targetWeight: real, confidence: real,
    thesis: string, evidence: seq<string>, invalidation: string)

  datatype TradeTicket = TradeTicket(
    id: string,
    createdAt: int,
    expiresAt: int,
    ticker: string,
    side: Action,
    quantity: real,
    referencePrice: real,
    estimatedValue: real,
    targetWeight: real,
    confidence: real,
    maxDeviation: real,
    thesis: string,
    evidence: seq<string>,
    invalidation: string,
    snapshotAt: int)

  /** What the ticket's own constructor demands (src/japan_agent/models.py:190-198). */
  predicate ValidTicket(t: TradeTicket) {
    && t.side != Hold
    && (t.side == Buy ==> t.quantity > 0.0) && (t.side == Sell ==> t.quantity < 0.0)
    && t.expiresAt > t.createdAt
  }

  datatype Violation =
    | HoldDecision | NotWhitelisted | TypeBlocked | MissingPrice | PriceTicker | PriceInvalid | PriceFuture
    | PriceStale | WeeklyTradeLimit | DuplicateOpen | NavInvalid | ActionTargetMismatch | OrderTooSmall
    | InsufficientShares | PositionLimit | AbsolutePositionLimit | CashFloor | NegativePosition

  const MAX_FRACTION := 0.40
  const SATELLITE_MAX := 15.0
  const MAX_TRADES_PER_WEEK := 3
  const CASH_FLOOR := 5.0
  const MAX_SNAPSHOT_AGE := 72 * HOUR
  const MAX_DEVIATION := 0.03
  const APPROVAL_TTL := 24 * HOUR

  // ---------- rounding ----------

  function Abs(x: real): (r: real)
    ensures r >= 0.0
  {
    if x < 0.0 then -x else x
  }

  /** To the nearest cent, ties to the even one. */
  function Cents(x: real): real {
    if x < 0.0 then -NearestCent(-x) else NearestCent(x)
  }

  function NearestCent(x: real): real {
    var low := (x * 100.0).Floor;
    var rest := x * 100.0 - low as real;
    (if rest > 0.5 || (rest == 0.5 && low % 2 == 1) then low + 1 else low) as real / 100.0
  }

  /** Rounding moves an amount by at most half a cent, to a whole number of cents, and a tie goes to the
      even one. */
  lemma CentsNearest(x: real) returns (cents: int)
    ensures Cents(x) == cents as real / 100.0
    ensures -0.005 <= Cents(x) - x <= 0.005
    ensures Abs(Cents(x) - x) == 0.005 ==> cents % 2 == 0
  {
    var y := Abs(x) * 100.0;
    var low, rest := y.Floor, y - y.Floor as real;
    var nearest := if rest > 0.5 || (rest == 0.5 && low % 2 == 1) then low + 1 else low;
    cents := if x < 0.0 then -nearest else nearest;
  }

  /** Down to a whole number of ten-thousandths of a share. */
  function WholeQuantity(x: real): real {
    (x * 10000.0).Floor as real / 10000.0
  }

  // ---------- shared limits ----------

  /** Trades submitted since Monday 00:00 UTC. */
  function ThisWeek(times: seq<int>, now: int): nat {
    if times == [] then 0
    else (if times[0] >= WeekStart(now) then 1 else 0) + ThisWeek(times[1..], now)
  }

  function FractionCap(rule: InstrumentRule): real {
    if rule.maxFraction < MAX_FRACTION then rule.maxFraction else MAX_FRACTION
  }

  function AbsoluteCap(rule: InstrumentRule): Option<real> {
    if rule.maxGbp.Some? then rule.maxGbp
    else if rule.sleeve != Core then Some(SATELLITE_MAX)
    else None
  }

  /** What an order of this size is worth, to the cent. */
  function OrderValue(quantity: real, price: real): real { Cents(quantity * price) }

  function FractionLimit(rule: InstrumentRule, nav: real): real { nav * FractionCap(rule) }

  function TargetValue(weight: real, nav: real): real { Cents(weight * nav) }

  function Projected(side: Action, held: Position, value: real): real {
    if side == Buy then held.value + value else held.value - value
  }

  function Flag(cond: bool, violation: Violation): seq<Violation> {
    if cond then [violation] else []
  }

  /** The list, grown by one violation if the condition holds. */
  method Note(violations: seq<Violation>, cond: bool, violation: Violation) returns (grown: seq<Violation>)
    ensures grown == violations + Flag(cond, violation)
  {
    grown := violations;
    if cond {
      grown := grown + [violation];
    }
  }

  // ---------- validate_execution ----------

  predicate TypeForbidden(rule: InstrumentRule) { rule.kind.OtherType? }

  predicate OverFraction(rule: Option<InstrumentRule>, nav: real, projected: real) {
    rule.Some? && nav > 0.0 && projected > FractionLimit(rule.value, nav)
  }

  predicate OverAbsolute(rule: Option<InstrumentRule>, nav: real, projected: real) {
    rule.Some? && nav > 0.0 && AbsoluteCap(rule.value).Some? && projected > AbsoluteCap(rule.value).value
  }

  function ExecutionViolations(ticket: TradeTicket, rule: Option<InstrumentRule>, portfolio: Portfolio,
                               price: real, times: seq<int>, now: int): seq<Violation>
  {
    var nav, held := portfolio.Nav(), portfolio.PositionIn(ticket.ticker);
    var value := OrderValue(Abs(ticket.quantity), price);
    var projected := Projected(ticket.side, held, value);
    Flag(rule.None? || rule.value.ticker != ticket.ticker, NotWhitelisted)
    + Flag(rule.Some? && rule.value.ticker == ticket.ticker && TypeForbidden(rule.value), TypeBlocked)
    + Flag(nav <= 0.0, NavInvalid)
    + Flag(ThisWeek(times, now) >= MAX_TRADES_PER_WEEK, WeeklyTradeLimit)
    + Flag(ticket.side == Buy && portfolio.cash - value < CASH_FLOOR, CashFloor)
    + Flag(ticket.side == Sell && Abs(ticket.quantity) > held.quantity, InsufficientShares)
    + Flag(projected < 0.0, NegativePosition)
    + Flag(OverFraction(rule, nav, projected), PositionLimit)
    + Flag(OverAbsolute(rule, nav, projected), AbsolutePositionLimit)
  }

  method CountThisWeek(times: seq<int>, now: int) returns (count: nat)
    ensures count == ThisWeek(times, now)
  {
    count := 0;
    var i := 0;
    while i < |times|
      invariant 0 <= i <= |times|
      invariant count + ThisWeek(times[i..], now) == ThisWeek(times, now)
    {
      assert times[i..][1..] == times[i + 1..];
      if times[i] >= WeekStart(now) {
        count := count + 1;
      }
      i := i + 1;
    }
  }

  method ValidateExecution(ticket: TradeTicket, rule: Option<InstrumentRule>, portfolio: Portfolio,
                           price: real, times: seq<int>, now: int) returns (violations: seq<Violation>)
    ensures violations == ExecutionViolations(ticket, rule, portfolio, price, times, now)
  {
    hide Flag, OrderValue, Abs, FractionLimit, AbsoluteCap, FirstPosition, ThisWeek, OverFraction, OverAbsolute,
         Projected;
    violations := Note([], rule.None? || rule.value.ticker != ticket.ticker, NotWhitelisted);
    assert violations == Flag(rule.None? || rule.value.ticker != ticket.ticker, NotWhitelisted);
    violations := Note(violations, rule.Some? && rule.value.ticker == ticket.ticker && TypeForbidden(rule.value),
                       TypeBlocked);
    var nav := portfolio.Nav();
    violations := Note(violations, nav <= 0.0, NavInvalid);
    var held := portfolio.PositionIn(ticket.ticker);
    var value := OrderValue(Abs(ticket.quantity), price);
    var projected := Projected(ticket.side, held, value);
    var thisWeek := CountThisWeek(times, now);
    violations := Note(violations, thisWeek >= MAX_TRADES_PER_WEEK, WeeklyTradeLimit);
    violations := Note(violations, ticket.side == Buy && portfolio.cash - value < CASH_FLOOR, CashFloor);
    violations := Note(violations, ticket.side == Sell && Abs(ticket.quantity) > held.quantity, InsufficientShares);
    violations := Note(violations, projected < 0.0, NegativePosition);
    violations := Note(violations, OverFraction(rule, nav, projected), PositionLimit);
    violations := Note(violations, OverAbsolute(rule, nav, projected), AbsolutePositionLimit);
  }

  // ---------- build ----------

  /** The checks made before the order is sized. */
  function EarlyViolations(decision: Decision, rule: Option<InstrumentRule>, snapshot: Option<PriceSnapshot>,
                           times: seq<int>, duplicate: bool, now: int): seq<Violation>
  {
    var named := Flag(decision.action == Hold, HoldDecision)
                 + Flag(rule.None?, NotWhitelisted)
                 + Flag(rule.Some? && TypeForbidden(rule.value), TypeBlocked);
    PriceChecked(named, decision, snapshot, now)
    + Flag(ThisWeek(times, now) >= MAX_TRADES_PER_WEEK, WeeklyTradeLimit)
    + Flag(duplicate, DuplicateOpen)
  }

  function PriceChecked(violations: seq<Violation>, decision: Decision, snapshot: Option<PriceSnapshot>, now: int)
    : seq<Violation>
  {
    match snapshot
    case None => violations + [MissingPrice]
    case Some(s) =>
      violations
      + Flag(s.ticker != decision.instrument, PriceTicker)
      + Flag(s.priceGbp <= 0.0 || s.nativePrice <= 0.0, PriceInvalid)
      + Flag(now < s.observedAt, PriceFuture)
      + Flag(now - s.observedAt > MAX_SNAPSHOT_AGE, PriceStale)
  }

  /** How many shares move the position to its target weight, rounded down. */
  function OrderQuantity(decision: Decision, held: Position, nav: real, price: real): real
    requires price > 0.0
  {
    WholeQuantity(Abs(TargetValue(decision.targetWeight, nav) - held.value) / price)
  }

  /** The order is the largest number of ten-thousandths of a share that does not overshoot the target. */
  lemma OrderNeverOvershoots(decision: Decision, held: Position, nav: real, price: real)
    requires price > 0.0
    ensures var gap := Abs(TargetValue(decision.targetWeight, nav) - held.value);
            var quantity := OrderQuantity(decision, held, nav, price);
            0.0 <= quantity && quantity * price <= gap < (quantity + 0.0001) * price
  {
    hide TargetValue;
    var gap := Abs(TargetValue(decision.targetWeight, nav) - held.value);
    DivMono(0.0, gap, price);
    Bracket(WholeQuantity(gap / price), WholeQuantity(gap / price) + 0.0001, gap, price);
  }

  /** The checks of the sized order. */
  function OrderViolations(decision: Decision, rule: InstrumentRule, price: real, portfolio: Portfolio): seq<Violation>
    requires price > 0.0
  {
    var nav, held := portfolio.Nav(), portfolio.PositionIn(rule.ticker);
    var delta := TargetValue(decision.targetWeight, nav) - held.value;
    var quantity := OrderQuantity(decision, held, nav, price);
    var value := OrderValue(quantity, price);
    var projected := Projected(decision.action, held, value);
    Flag(decision.action == Buy && delta <= 0.0, ActionTargetMismatch)
    + Flag(decision.action == Sell && delta >= 0.0, ActionTargetMismatch)
    + Flag(quantity < 0.0001, OrderTooSmall)
    + Flag(decision.action == Sell && quantity > held.quantity, InsufficientShares)
    + Flag(projected > FractionLimit(rule, nav), PositionLimit)
    + Flag(AbsoluteCap(rule).Some? && projected > AbsoluteCap(rule).value, AbsolutePositionLimit)
    + Flag(decision.action == Buy && portfolio.cash - value < CASH_FLOOR, CashFloor)
    + Flag(projected < 0.0, NegativePosition)
  }

  function TicketOf(decision: Decision, rule: InstrumentRule, snapshot: PriceSnapshot, portfolio: Portfolio,
                    now: int, id: string): TradeTicket
    requires snapshot.priceGbp > 0.0
  {
    var quantity := OrderQuantity(decision, portfolio.PositionIn(rule.ticker), portfolio.Nav(), snapshot.priceGbp);
    TradeTicket(id, now, now + APPROVAL_TTL, rule.ticker, decision.action,
                if decision.action == Buy then quantity else -quantity,
                snapshot.priceGbp, OrderValue(quantity, snapshot.priceGbp), decision.targetWeight, decision.confidence,
                MAX_DEVIATION, decision.thesis, decision.evidence, decision.invalidation, snapshot.observedAt)
  }

  function Built(decision: Decision, rule: Option<InstrumentRule>, snapshot: Option<PriceSnapshot>,
                 portfolio: Portfolio, times: seq<int>, duplicate: bool, now: int, id: string)
    : Result<TradeTicket, seq<Violation>>
  {
    var early := EarlyViolations(decision, rule, snapshot, times, duplicate, now);
    if early != [] then Err(early)
    else if portfolio.Nav() <= 0.0 then Err([NavInvalid])
    else
      NoEarlyViolation(decision, rule, snapshot, times, duplicate, now);
      var late := OrderViolations(decision, rule.value, snapshot.value.priceGbp, portfolio);
      if late != [] then Err(late) else Ok(TicketOf(decision, rule.value, snapshot.value, portfolio, now, id))
  }

  lemma NoEarlyViolation(decision: Decision, rule: Option<InstrumentRule>, snapshot: Option<PriceSnapshot>,
                         times: seq<int>, duplicate: bool, now: int)
    requires EarlyViolations(decision, rule, snapshot, times, duplicate, now) == []
    ensures decision.action != Hold && rule.Some? && !TypeForbidden(rule.value)
    ensures snapshot.Some? && snapshot.value.priceGbp > 0.0
    ensures ThisWeek(times, now) < MAX_TRADES_PER_WEEK
  {
    hide ThisWeek;
  }

  method Build(decision: Decision, rule: Option<InstrumentRule>, snapshot: Option<PriceSnapshot>,
               portfolio: Portfolio, times: seq<int>, duplicate: bool, now: int, id: string)
    returns (result: Result<TradeTicket, seq<Violation>>)
    ensures result == Built(decision, rule, snapshot, portfolio, times, duplicate, now, id)
  {
    hide Flag, ThisWeek, OrderViolations, OrderQuantity;
    assert [] + Flag(decision.action == Hold, HoldDecision) == Flag(decision.action == Hold, HoldDecision);
    var violations: seq<Violation> := Note([], decision.action == Hold, HoldDecision);
    violations := Note(violations, rule.None?, NotWhitelisted);
    violations := Note(violations, rule.Some? && TypeForbidden(rule.value), TypeBlocked);
    if snapshot.None? {
      violations := violations + [MissingPrice];
    } else {
      var s := snapshot.value;
      var age := now - s.observedAt;
      violations := Note(violations, s.ticker != decision.instrument, PriceTicker);
      violations := Note(violations, s.priceGbp <= 0.0 || s.nativePrice <= 0.0, PriceInvalid);
      violations := Note(violations, age < 0, PriceFuture);
      violations := Note(violations, age > MAX_SNAPSHOT_AGE, PriceStale);
    }
    var thisWeek := CountThisWeek(times, now);
    violations := Note(violations, thisWeek >= MAX_TRADES_PER_WEEK, WeeklyTradeLimit);
    violations := Note(violations, duplicate, DuplicateOpen);
    assert violations == EarlyViolations(decision, rule, snapshot, times, duplicate, now);
    if violations != [] {
      return Err(violations);
    }
    NoEarlyViolation(decision, rule, snapshot, times, duplicate, now);
    result := SizeOrder(decision, rule.value, snapshot.value, portfolio, now, id);
  }

  /** The second half of `build`: size the order, check it, write the ticket. */
  method SizeOrder(decision: Decision, rule: InstrumentRule, snapshot: PriceSnapshot, portfolio: Portfolio,
                   now: int, id: string)
    returns (result: Result<TradeTicket, seq<Violation>>)
    requires decision.action != Hold && snapshot.priceGbp > 0.0
    ensures result ==
            if portfolio.Nav() <= 0.0 then Err([NavInvalid])
            else if OrderViolations(decision, rule, snapshot.priceGbp, portfolio) != []
            then Err(OrderViolations(decision, rule, snapshot.priceGbp, portfolio))
            else Ok(TicketOf(decision, rule, snapshot, portfolio, now, id))
  {
    hide OrderViolations, TicketOf;
    var nav := portfolio.Nav();
    if nav <= 0.0 {
      return Err([NavInvalid]);
    }
    var violations := CheckOrder(decision, rule, snapshot.priceGbp, portfolio);
    if violations != [] {
      return Err(violations);
    }
    result := Ok(TicketOf(decision, rule, snapshot, portfolio, now, id));
  }

  method CheckOrder(decision: Decision, rule: InstrumentRule, price: real, portfolio: Portfolio)
    returns (violations: seq<Violation>)
    requires price > 0.0
    ensures violations == OrderViolations(decision, rule, price, portfolio)
  {
    hide Flag, OrderValue, FractionLimit, TargetValue, AbsoluteCap, FirstPosition, OrderQuantity, Projected;
    var nav := portfolio.Nav();
    var current := portfolio.PositionIn(rule.ticker);
    var delta := TargetValue(decision.targetWeight, nav) - current.value;
    violations := Note([], decision.action == Buy && delta <= 0.0, ActionTargetMismatch);
    assert violations == Flag(decision.action == Buy && delta <= 0.0, ActionTargetMismatch);
    violations := Note(violations, decision.action == Sell && delta >= 0.0, ActionTargetMismatch);
    var quantity := OrderQuantity(decision, current, nav, price);
    violations := Note(violations, quantity < 0.0001, OrderTooSmall);
    violations := Note(violations, decision.action == Sell && quantity > current.quantity, InsufficientShares);
    var value := OrderValue(quantity, price);
    var projected := Projected(decision.action, current, value);
    violations := Note(violations, projected > FractionLimit(rule, nav), PositionLimit);
    var cap := AbsoluteCap(rule);
    violations := Note(violations, cap.Some? && projected > cap.value, AbsolutePositionLimit);
    violations := Note(violations, decision.action == Buy && portfolio.cash - value < CASH_FLOOR, CashFloor);
    violations := Note(violations, projected < 0.0, NegativePosition);
  }

  // ---------- what a built ticket guarantees ----------

  /** The limits both checks share, of a portfolio after the order at this price. */
  ghost predicate WithinLimits(ticket: TradeTicket, rule: InstrumentRule, portfolio: Portfolio, price: real) {
    var held := portfolio.PositionIn(ticket.ticker);
    var value := OrderValue(Abs(ticket.quantity), price);
    var projected := Projected(ticket.side, held, value);
    && portfolio.Nav() > 0.0
    && 0.0 <= projected <= FractionLimit(rule, portfolio.Nav())
    && (AbsoluteCap(rule).Some? ==> projected <= AbsoluteCap(rule).value)
    && (ticket.side == Buy ==> portfolio.cash - value >= CASH_FLOOR)
    && (ticket.side == Sell ==> Abs(ticket.quantity) <= held.quantity)
  }

  /** A ticket is executable exactly when its instrument is still allowed, fewer than three trades were
      submitted this week and the fresh portfolio keeps every limit. */
  lemma ExecutableIff(ticket: TradeTicket, rule: Option<InstrumentRule>, portfolio: Portfolio,
                      price: real, times: seq<int>, now: int)
    ensures ExecutionViolations(ticket, rule, portfolio, price, times, now) == [] <==>
            && rule.Some? && rule.value.ticker == ticket.ticker && !TypeForbidden(rule.value)
            && ThisWeek(times, now) < MAX_TRADES_PER_WEEK
            && WithinLimits(ticket, rule.value, portfolio, price)
  {
    hide ThisWeek, OrderValue, Abs, FractionLimit, AbsoluteCap, FirstPosition;
  }

  lemma OrderPasses(decision: Decision, rule: InstrumentRule, price: real, portfolio: Portfolio)
    requires price > 0.0 && OrderViolations(decision, rule, price, portfolio) == []
    ensures var nav, held := portfolio.Nav(), portfolio.PositionIn(rule.ticker);
            var quantity := OrderQuantity(decision, held, nav, price);
            var value := OrderValue(quantity, price);
            var projected := Projected(decision.action, held, value);
            && quantity >= 0.0001
            && (decision.action == Sell ==> quantity <= held.quantity)
            && 0.0 <= projected <= FractionLimit(rule, nav)
            && (AbsoluteCap(rule).Some? ==> projected <= AbsoluteCap(rule).value)
            && (decision.action == Buy ==> portfolio.cash - value >= CASH_FLOOR)
  {
    hide OrderValue, FractionLimit, TargetValue, AbsoluteCap, FirstPosition, OrderQuantity, Projected;
  }

  lemma SizedWithinLimits(decision: Decision, rule: InstrumentRule, snapshot: PriceSnapshot, portfolio: Portfolio,
                          now: int, id: string)
    requires decision.action != Hold && snapshot.priceGbp > 0.0 && portfolio.Nav() > 0.0
    requires OrderViolations(decision, rule, snapshot.priceGbp, portfolio) == []
    ensures var t := TicketOf(decision, rule, snapshot, portfolio, now, id);
            && ValidTicket(t) && t.ticker == rule.ticker
            && WithinLimits(t, rule, portfolio, snapshot.priceGbp)
  {
    hide OrderViolations, OrderValue, FractionLimit, AbsoluteCap, FirstPosition, OrderQuantity;
    OrderPasses(decision, rule, snapshot.priceGbp, portfolio);
    var t := TicketOf(decision, rule, snapshot, portfolio, now, id);
    var quantity := OrderQuantity(decision, portfolio.PositionIn(rule.ticker), portfolio.Nav(), snapshot.priceGbp);
    assert Abs(t.quantity) == quantity;
  }

  /** A FRESH TICKET REVALIDATES: what `build` accepts, `validate_execution` accepts at the same price
      against the same portfolio and week. */
  lemma FreshTicketRevalidates(decision: Decision, rule: Option<InstrumentRule>, snapshot: Option<PriceSnapshot>,
                               portfolio: Portfolio, times: seq<int>, duplicate: bool, now: int, id: string)
    requires Built(decision, rule, snapshot, portfolio, times, duplicate, now, id).Ok?
    ensures var t := Built(decision, rule, snapshot, portfolio, times, duplicate, now, id).value;
            && ValidTicket(t) && rule.Some? && snapshot.Some?
            && ExecutionViolations(t, rule, portfolio, snapshot.value.priceGbp, times, now) == []
  {
    hide EarlyViolations, OrderViolations, ExecutionViolations, TicketOf, WithinLimits;
    NoEarlyViolation(decision, rule, snapshot, times, duplicate, now);
    SizedWithinLimits(decision, rule.value, snapshot.value, portfolio, now, id);
    var t := TicketOf(decision, rule.value, snapshot.value, portfolio, now, id);
    ExecutableIff(t, rule, portfolio, snapshot.value.priceGbp, times, now);
  }

  // ---------- the limits in the portfolio's own columns ----------

  /** The first position of that ticker, or none at all. */
  lemma {:induction false} PositionIsFirst(positions: seq<Position>, ticker: string)
    ensures var p := FirstPosition(positions, ticker);
            || (p == Position(ticker, 0.0, 0.0) && forall i | 0 <= i < |positions| :: positions[i].ticker != ticker)
            || exists i :: 0 <= i < |positions| && positions[i] == p && p.ticker == ticker
                           && forall j | 0 <= j < i :: positions[j].ticker != ticker
  {
    if positions != [] && positions[0].ticker != ticker {
      PositionIsFirst(positions[1..], ticker);
      var p := FirstPosition(positions, ticker);
      if i :| 0 <= i < |positions[1..]| && positions[1..][i] == p
              && forall j | 0 <= j < i :: positions[1..][j].ticker != ticker {
        assert positions[i + 1] == p;
        assert forall j | 1 <= j < i + 1 :: positions[j] == positions[1..][j - 1];
      } else {
        assert forall i | 1 <= i < |positions| :: positions[i] == positions[1..][i - 1];
      }
    }
  }

  /** The position is over two fifths of the NAV, or over the instrument's own fraction of it. */
  predicate OverFractionOf(rule: InstrumentRule, nav: real, value: real) {
    value > nav * 0.40 || value > nav * rule.maxFraction
  }

  /** It is over the instrument's own limit in pounds, or over 15 outside the core where it states none. */
  predicate OverPounds(rule: InstrumentRule, value: real) {
    match rule.maxGbp
    case Some(cap) => value > cap
    case None => rule.sleeve != Core && value > 15.0
  }

  lemma OverTheLesser(nav: real, a: real, b: real, value: real)
    requires nav > 0.0
    ensures value > nav * (if b < a then b else a) <==> value > nav * a || value > nav * b
  {
    if b < a {
      MulMono(b, a, nav);
    } else {
      MulMono(a, b, nav);
    }
  }

  lemma OverLimits(rule: InstrumentRule, nav: real, value: real)
    ensures nav > 0.0 ==> (OverFractionOf(rule, nav, value) <==> value > FractionLimit(rule, nav))
    ensures OverPounds(rule, value) <==> AbsoluteCap(rule).Some? && value > AbsoluteCap(rule).value
  {
    if nav > 0.0 {
      OverTheLesser(nav, MAX_FRACTION, rule.maxFraction, value);
    }
  }

  predicate PositionAllowed(rule: InstrumentRule, nav: real, value: real) {
    !OverFractionOf(rule, nav, value) && !OverPounds(rule, value)
  }

  lemma PositionAllowedIff(rule: InstrumentRule, nav: real, value: real)
    requires nav > 0.0
    ensures PositionAllowed(rule, nav, value) <==>
            value <= FractionLimit(rule, nav) && (AbsoluteCap(rule).Some? ==> value <= AbsoluteCap(rule).value)
  {
    OverLimits(rule, nav, value);
    hide OverFractionOf, OverPounds, FractionLimit, AbsoluteCap;
  }

  /** An order of `value` pounds, bought or sold, leaves the cash, the holding and the position as they may be. */
  predicate OrderAllowed(side: Action, rule: InstrumentRule, portfolio: Portfolio, held: Position, quantity: real,
                         value: real)
  {
    var projected := if side == Buy then held.value + value else held.value - value;
    && 0.0 <= projected && PositionAllowed(rule, portfolio.Nav(), projected)
    && (side == Buy ==> portfolio.cash - value >= 5.0)
    && (side == Sell ==> quantity <= held.quantity)
  }

  /** THE NAV is the cash and what each position is worth. */
  lemma NavAdds(portfolio: Portfolio, p: Position)
    ensures Portfolio(portfolio.cash, []).Nav() == portfolio.cash
    ensures portfolio.(positions := portfolio.positions + [p]).Nav() == portfolio.Nav() + p.value
    ensures portfolio.(cash := 0.0).Nav() + portfolio.cash == portfolio.Nav()
  {
    SumSnoc(portfolio.positions, p, (p: Position) => p.value);
  }

  lemma FlagAt(before: seq<Violation>, cond: bool, violation: Violation, asked: Violation)
    ensures asked in before + Flag(cond, violation) <==> asked in before || (cond && asked == violation)
  {
  }

  function Listed8(c1: bool, v1: Violation, c2: bool, v2: Violation, c3: bool, v3: Violation, c4: bool, v4:
                   Violation, c5: bool, v5: Violation, c6: bool, v6: Violation, c7: bool, v7: Violation, c8: bool,
                   v8: Violation)
    : seq<Violation>
  {
    Flag(c1, v1) + Flag(c2, v2) + Flag(c3, v3) + Flag(c4, v4)
    + Flag(c5, v5) + Flag(c6, v6) + Flag(c7, v7) + Flag(c8, v8)
  }

  lemma InFlags8(asked: Violation, c1: bool, v1: Violation, c2: bool, v2: Violation, c3: bool, v3: Violation, c4:
                 bool, v4: Violation, c5: bool, v5: Violation, c6: bool, v6: Violation, c7: bool, v7: Violation, c8:
                 bool, v8: Violation)
    ensures asked in Listed8(c1, v1, c2, v2, c3, v3, c4, v4, c5, v5, c6, v6, c7, v7, c8, v8) <==>
            || (c1 && asked == v1) || (c2 && asked == v2) || (c3 && asked == v3) || (c4 && asked == v4)
            || (c5 && asked == v5) || (c6 && asked == v6) || (c7 && asked == v7) || (c8 && asked == v8)
  {
    hide Flag;
    var f1 := Flag(c1, v1);
    var f2 := f1 + Flag(c2, v2);
    var f3 := f2 + Flag(c3, v3);
    var f4 := f3 + Flag(c4, v4);
    var f5 := f4 + Flag(c5, v5);
    var f6 := f5 + Flag(c6, v6);
    var f7 := f6 + Flag(c7, v7);
    var f8 := f7 + Flag(c8, v8);
    FlagAt([], c1, v1, asked);
    assert [] + f1 == f1;
    FlagAt(f1, c2, v2, asked);
    FlagAt(f2, c3, v3, asked);
    FlagAt(f3, c4, v4, asked);
    FlagAt(f4, c5, v5, asked);
    FlagAt(f5, c6, v6, asked);
    FlagAt(f6, c7, v7, asked);
    FlagAt(f7, c8, v8, asked);
  }

  function Listed9(c1: bool, v1: Violation, c2: bool, v2: Violation, c3: bool, v3: Violation, c4: bool, v4:
                   Violation, c5: bool, v5: Violation, c6: bool, v6: Violation, c7: bool, v7: Violation, c8: bool,
                   v8: Violation, c9: bool, v9: Violation)
    : seq<Violation>
  {
    Flag(c1, v1) + Flag(c2, v2) + Flag(c3, v3) + Flag(c4, v4)
    + Flag(c5, v5) + Flag(c6, v6) + Flag(c7, v7) + Flag(c8, v8)
    + Flag(c9, v9)
  }

  lemma InFlags9(asked: Violation, c1: bool, v1: Violation, c2: bool, v2: Violation, c3: bool, v3: Violation, c4:
                 bool, v4: Violation, c5: bool, v5: Violation, c6: bool, v6: Violation, c7: bool, v7: Violation, c8:
                 bool, v8: Violation, c9: bool, v9: Violation)
    ensures asked in Listed9(c1, v1, c2, v2, c3, v3, c4, v4, c5, v5, c6, v6, c7, v7, c8, v8, c9, v9) <==>
            || (c1 && asked == v1) || (c2 && asked == v2) || (c3 && asked == v3) || (c4 && asked == v4)
            || (c5 && asked == v5) || (c6 && asked == v6) || (c7 && asked == v7) || (c8 && asked == v8)
            || (c9 && asked == v9)
  {
    hide Flag;
    var f1 := Flag(c1, v1);
    var f2 := f1 + Flag(c2, v2);
    var f3 := f2 + Flag(c3, v3);
    var f4 := f3 + Flag(c4, v4);
    var f5 := f4 + Flag(c5, v5);
    var f6 := f5 + Flag(c6, v6);
    var f7 := f6 + Flag(c7, v7);
    var f8 := f7 + Flag(c8, v8);
    var f9 := f8 + Flag(c9, v9);
    FlagAt([], c1, v1, asked);
    assert [] + f1 == f1;
    FlagAt(f1, c2, v2, asked);
    FlagAt(f2, c3, v3, asked);
    FlagAt(f3, c4, v4, asked);
    FlagAt(f4, c5, v5, asked);
    FlagAt(f5, c6, v6, asked);
    FlagAt(f6, c7, v7, asked);
    FlagAt(f7, c8, v8, asked);
    FlagAt(f8, c9, v9, asked);
  }

  /** The limit of this name that an execution breaks. */
  predicate Breaks(asked: Violation, ticket: TradeTicket, rule: Option<InstrumentRule>, portfolio: Portfolio,
                   price: real, times: seq<int>, now: int)
  {
    var quantity := if ticket.quantity < 0.0 then -ticket.quantity else ticket.quantity;
    var held, value := FirstPosition(portfolio.positions, ticket.ticker), OrderValue(quantity, price);
    var projected := if ticket.side == Buy then held.value + value else held.value - value;
    match asked
    case NotWhitelisted => rule.None? || rule.value.ticker != ticket.ticker
    case TypeBlocked =>
      rule.Some? && rule.value.ticker == ticket.ticker && !rule.value.kind.Stock? && !rule.value.kind.Etf?
    case NavInvalid => portfolio.Nav() <= 0.0
    case WeeklyTradeLimit => ThisWeek(times, now) >= 3
    case CashFloor => ticket.side == Buy && portfolio.cash - value < 5.0
    case InsufficientShares => ticket.side == Sell && quantity > held.quantity
    case NegativePosition => projected < 0.0
    case PositionLimit => rule.Some? && portfolio.Nav() > 0.0 && OverFractionOf(rule.value, portfolio.Nav(), projected)
    case AbsolutePositionLimit => rule.Some? && portfolio.Nav() > 0.0 && OverPounds(rule.value, projected)
    case _ => false
  }

  /** WHICH VIOLATIONS an execution is told of: every limit it breaks, and no other. */
  lemma ViolationsMean(asked: Violation, ticket: TradeTicket, rule: Option<InstrumentRule>, portfolio: Portfolio,
                       price: real, times: seq<int>, now: int)
    ensures asked in ExecutionViolations(ticket, rule, portfolio, price, times, now) <==>
            Breaks(asked, ticket, rule, portfolio, price, times, now)
  {
    hide ExecutionViolations, Listed9, OrderValue, FirstPosition, OverFraction, OverAbsolute, OverFractionOf,
         OverPounds, ThisWeek, Portfolio.Nav, Flag, Cents;
    var quantity := Abs(ticket.quantity);
    var held, value := FirstPosition(portfolio.positions, ticket.ticker), OrderValue(quantity, price);
    var projected := Projected(ticket.side, held, value);
    OverMeans(rule, portfolio.Nav(), projected);
    ViolationsListed(ticket, rule, portfolio, price, times, now, quantity, held, value, projected);
    InFlags9(asked, rule.None? || rule.value.ticker != ticket.ticker, NotWhitelisted,
             rule.Some? && rule.value.ticker == ticket.ticker && TypeForbidden(rule.value), TypeBlocked,
             portfolio.Nav() <= 0.0, NavInvalid, ThisWeek(times, now) >= MAX_TRADES_PER_WEEK, WeeklyTradeLimit,
             ticket.side == Buy && portfolio.cash - value < CASH_FLOOR, CashFloor,
             ticket.side == Sell && quantity > held.quantity, InsufficientShares, projected < 0.0, NegativePosition,
             OverFraction(rule, portfolio.Nav(), projected), PositionLimit,
             OverAbsolute(rule, portfolio.Nav(), projected), AbsolutePositionLimit);
  }

  lemma OverMeans(rule: Option<InstrumentRule>, nav: real, value: real)
    ensures OverFraction(rule, nav, value) <==> rule.Some? && nav > 0.0 && OverFractionOf(rule.value, nav, value)
    ensures OverAbsolute(rule, nav, value) <==> rule.Some? && nav > 0.0 && OverPounds(rule.value, value)
  {
    if rule.Some? {
      OverLimits(rule.value, nav, value);
    }
    hide FractionLimit, AbsoluteCap, OverFractionOf, OverPounds;
  }

  lemma ViolationsListed(ticket: TradeTicket, rule: Option<InstrumentRule>, portfolio: Portfolio, price: real,
                         times: seq<int>, now: int, quantity: real, held: Position, value: real, projected: real)
    requires quantity == Abs(ticket.quantity) && held == FirstPosition(portfolio.positions, ticket.ticker)
    requires value == OrderValue(quantity, price) && projected == Projected(ticket.side, held, value)
    ensures ExecutionViolations(ticket, rule, portfolio, price, times, now) ==
            Listed9(rule.None? || rule.value.ticker != ticket.ticker, NotWhitelisted,
                    rule.Some? && rule.value.ticker == ticket.ticker && TypeForbidden(rule.value), TypeBlocked,
                    portfolio.Nav() <= 0.0, NavInvalid, ThisWeek(times, now) >= MAX_TRADES_PER_WEEK, WeeklyTradeLimit,
                    ticket.side == Buy && portfolio.cash - value < CASH_FLOOR, CashFloor,
                    ticket.side == Sell && quantity > held.quantity, InsufficientShares,
                    projected < 0.0, NegativePosition,
                    OverFraction(rule, portfolio.Nav(), projected), PositionLimit,
                    OverAbsolute(rule, portfolio.Nav(), projected), AbsolutePositionLimit)
  {
    hide Flag, OrderValue, FirstPosition, OverFraction, OverAbsolute, Abs, ThisWeek, Portfolio.Nav, Projected,
         TypeForbidden;
  }

  /** The check of this name that a decision fails before it is sized. */
  predicate FailsEarly(asked: Violation, decision: Decision, rule: Option<InstrumentRule>,
                       snapshot: Option<PriceSnapshot>, times: seq<int>, duplicate: bool, now: int)
  {
    match asked
    case HoldDecision => decision.action == Hold
    case NotWhitelisted => rule.None?
    case TypeBlocked => rule.Some? && !rule.value.kind.Stock? && !rule.value.kind.Etf?
    case MissingPrice => snapshot.None?
    case PriceTicker => snapshot.Some? && snapshot.value.ticker != decision.instrument
    case PriceInvalid => snapshot.Some? && (snapshot.value.priceGbp <= 0.0 || snapshot.value.nativePrice <= 0.0)
    case PriceFuture => snapshot.Some? && now < snapshot.value.observedAt
    case PriceStale => snapshot.Some? && now - snapshot.value.observedAt > 72 * HOUR
    case WeeklyTradeLimit => ThisWeek(times, now) >= 3
    case DuplicateOpen => duplicate
    case _ => false
  }

  /** The check of this name that a sized order fails. */
  predicate FailsSized(asked: Violation, decision: Decision, rule: InstrumentRule, price: real, portfolio: Portfolio)
    requires price > 0.0
  {
    var held, nav := FirstPosition(portfolio.positions, rule.ticker), portfolio.Nav();
    var target, quantity := TargetValue(decision.targetWeight, nav), OrderQuantity(decision, held, nav, price);
    var value := OrderValue(quantity, price);
    var projected := if decision.action == Buy then held.value + value else held.value - value;
    match asked
    case ActionTargetMismatch =>
      (decision.action == Buy && target <= held.value) || (decision.action == Sell && target >= held.value)
    case OrderTooSmall => quantity < 0.0001
    case InsufficientShares => decision.action == Sell && quantity > held.quantity
    case PositionLimit => OverFractionOf(rule, nav, projected)
    case AbsolutePositionLimit => OverPounds(rule, projected)
    case CashFloor => decision.action == Buy && portfolio.cash - value < 5.0
    case NegativePosition => projected < 0.0
    case _ => false
  }

  lemma EarlyViolationsMean(asked: Violation, decision: Decision, rule: Option<InstrumentRule>,
                            snapshot: Option<PriceSnapshot>, times: seq<int>, duplicate: bool, now: int)
    ensures asked in EarlyViolations(decision, rule, snapshot, times, duplicate, now) <==>
            FailsEarly(asked, decision, rule, snapshot, times, duplicate, now)
  {
    hide Flag, ThisWeek;
    EarlyNamedMean(decision, rule, snapshot, now, asked);
    var checked, weekly := EarlyNamed(decision, rule, snapshot, now), ThisWeek(times, now) >= MAX_TRADES_PER_WEEK;
    FlagAt(checked, weekly, WeeklyTradeLimit, asked);
    FlagAt(checked + Flag(weekly, WeeklyTradeLimit), duplicate, DuplicateOpen, asked);
  }

  lemma OrderViolationsMean(asked: Violation, decision: Decision, rule: InstrumentRule, price: real,
                            portfolio: Portfolio)
    requires price > 0.0 && portfolio.Nav() > 0.0
    ensures asked in OrderViolations(decision, rule, price, portfolio) <==>
            FailsSized(asked, decision, rule, price, portfolio)
  {
    hide OrderViolations, Listed8, OrderValue, FirstPosition, FractionLimit, AbsoluteCap, OverPounds, OverFractionOf,
         TargetValue, OrderQuantity, Portfolio.Nav, Flag, Cents;
    var held, nav := FirstPosition(portfolio.positions, rule.ticker), portfolio.Nav();
    var target, quantity := TargetValue(decision.targetWeight, nav), OrderQuantity(decision, held, nav, price);
    var value := OrderValue(quantity, price);
    var projected, cap := Projected(decision.action, held, value), AbsoluteCap(rule);
    OverLimits(rule, nav, projected);
    OrderViolationsListed(decision, rule, price, portfolio, held, nav, target, quantity, value, projected, cap);
    InFlags8(asked, decision.action == Buy && target - held.value <= 0.0, ActionTargetMismatch,
             decision.action == Sell && target - held.value >= 0.0, ActionTargetMismatch,
             quantity < 0.0001, OrderTooSmall,
             decision.action == Sell && quantity > held.quantity, InsufficientShares,
             projected > FractionLimit(rule, nav), PositionLimit,
             cap.Some? && projected > cap.value, AbsolutePositionLimit,
             decision.action == Buy && portfolio.cash - value < CASH_FLOOR, CashFloor,
             projected < 0.0, NegativePosition);
  }

  lemma OrderViolationsListed(decision: Decision, rule: InstrumentRule, price: real, portfolio: Portfolio,
                              held: Position, nav: real, target: real, quantity: real, value: real, projected: real,
                              cap: Option<real>)
    requires price > 0.0 && nav == portfolio.Nav() && held == FirstPosition(portfolio.positions, rule.ticker)
    requires target == TargetValue(decision.targetWeight, nav) && quantity == OrderQuantity(decision, held, nav, price)
    requires value == OrderValue(quantity, price) && projected == Projected(decision.action, held, value)
    requires cap == AbsoluteCap(rule)
    ensures OrderViolations(decision, rule, price, portfolio) ==
            Listed8(decision.action == Buy && target - held.value <= 0.0, ActionTargetMismatch,
                    decision.action == Sell && target - held.value >= 0.0, ActionTargetMismatch,
                    quantity < 0.0001, OrderTooSmall,
                    decision.action == Sell && quantity > held.quantity, InsufficientShares,
                    projected > FractionLimit(rule, nav), PositionLimit,
                    cap.Some? && projected > cap.value, AbsolutePositionLimit,
                    decision.action == Buy && portfolio.cash - value < CASH_FLOOR, CashFloor,
                    projected < 0.0, NegativePosition)
  {
    hide Flag, OrderValue, FirstPosition, FractionLimit, AbsoluteCap, TargetValue, OrderQuantity, Portfolio.Nav,
         Projected;
  }

  /** WHY A DECISION IS REFUSED: every early check it fails; failing none, the NAV; and with a positive NAV every check
      its order fails. */
  lemma RefusedFor(asked: Violation, decision: Decision, rule: Option<InstrumentRule>, snapshot: Option<PriceSnapshot>,
                   portfolio: Portfolio, times: seq<int>, duplicate: bool, now: int, id: string)
    requires Built(decision, rule, snapshot, portfolio, times, duplicate, now, id).Err?
    ensures var why := Built(decision, rule, snapshot, portfolio, times, duplicate, now, id).error;
            asked in why <==>
            if !MayBeSized(decision, rule, snapshot, times, duplicate, now)
            then FailsEarly(asked, decision, rule, snapshot, times, duplicate, now)
            else if portfolio.Nav() <= 0.0 then asked == NavInvalid
            else snapshot.Some? && snapshot.value.priceGbp > 0.0 && rule.Some?
                 && FailsSized(asked, decision, rule.value, snapshot.value.priceGbp, portfolio)
  {
    SizedIff(decision, rule, snapshot, times, duplicate, now);
    EarlyViolationsMean(asked, decision, rule, snapshot, times, duplicate, now);
    hide EarlyViolations, OrderViolations, FailsEarly, FailsSized, Portfolio.Nav;
    if MayBeSized(decision, rule, snapshot, times, duplicate, now) && portfolio.Nav() > 0.0 {
      OrderViolationsMean(asked, decision, rule.value, snapshot.value.priceGbp, portfolio);
    }
  }

  function EarlyNamed(decision: Decision, rule: Option<InstrumentRule>, snapshot: Option<PriceSnapshot>, now: int)
    : seq<Violation>
  {
    PriceChecked(Flag(decision.action == Hold, HoldDecision) + Flag(rule.None?, NotWhitelisted)
                 + Flag(rule.Some? && TypeForbidden(rule.value), TypeBlocked), decision, snapshot, now)
  }

  lemma EarlyNamedMean(decision: Decision, rule: Option<InstrumentRule>, snapshot: Option<PriceSnapshot>, now: int,
                       asked: Violation)
    ensures asked in EarlyNamed(decision, rule, snapshot, now) <==>
            || (asked == HoldDecision && decision.action == Hold) || (asked == NotWhitelisted && rule.None?)
            || (asked == TypeBlocked && rule.Some? && TypeForbidden(rule.value))
            || (asked == MissingPrice && snapshot.None?)
            || (asked == PriceTicker && snapshot.Some? && snapshot.value.ticker != decision.instrument)
            || (asked == PriceInvalid && snapshot.Some?
                && (snapshot.value.priceGbp <= 0.0 || snapshot.value.nativePrice <= 0.0))
            || (asked == PriceFuture && snapshot.Some? && now < snapshot.value.observedAt)
            || (asked == PriceStale && snapshot.Some? && now - snapshot.value.observedAt > MAX_SNAPSHOT_AGE)
  {
    hide Flag, TypeForbidden;
    var a := Flag(decision.action == Hold, HoldDecision);
    var b := a + Flag(rule.None?, NotWhitelisted);
    var c := b + Flag(rule.Some? && TypeForbidden(rule.value), TypeBlocked);
    FlagAt([], decision.action == Hold, HoldDecision, asked);
    assert [] + a == a;
    FlagAt(a, rule.None?, NotWhitelisted, asked);
    FlagAt(b, rule.Some? && TypeForbidden(rule.value), TypeBlocked, asked);
    if snapshot.Some? {
      var s := snapshot.value;
      var d := c + Flag(s.ticker != decision.instrument, PriceTicker);
      var e := d + Flag(s.priceGbp <= 0.0 || s.nativePrice <= 0.0, PriceInvalid);
      var f := e + Flag(now < s.observedAt, PriceFuture);
      FlagAt(c, s.ticker != decision.instrument, PriceTicker, asked);
      FlagAt(d, s.priceGbp <= 0.0 || s.nativePrice <= 0.0, PriceInvalid, asked);
      FlagAt(e, now < s.observedAt, PriceFuture, asked);
      FlagAt(f, now - s.observedAt > MAX_SNAPSHOT_AGE, PriceStale, asked);
    }
  }

  /** THE LIMITS an execution meets, in the fresh portfolio's own columns. */
  lemma LimitsMean(ticket: TradeTicket, rule: InstrumentRule, portfolio: Portfolio, price: real)
    ensures WithinLimits(ticket, rule, portfolio, price) <==>
            var quantity := if ticket.quantity < 0.0 then -ticket.quantity else ticket.quantity;
            && portfolio.Nav() > 0.0
            && OrderAllowed(ticket.side, rule, portfolio, FirstPosition(portfolio.positions, ticket.ticker), quantity,
                            OrderValue(quantity, price))
  {
    var quantity := Abs(ticket.quantity);
    var held, value := FirstPosition(portfolio.positions, ticket.ticker), OrderValue(quantity, price);
    assert quantity == if ticket.quantity < 0.0 then -ticket.quantity else ticket.quantity;
    var projected := Projected(ticket.side, held, value);
    hide OrderValue, Cents, FirstPosition, FractionLimit, AbsoluteCap, PositionAllowed, Abs;
    if portfolio.Nav() > 0.0 {
      PositionAllowedIff(rule, portfolio.Nav(), projected);
    }
  }

  /** THE TARGET of an order is its weight of the NAV, and its value its quantity times the price, both to half
      a cent; the quantity is a whole number of ten-thousandths of a share. */
  lemma TargetIsWeight(decision: Decision, held: Position, nav: real, price: real)
    returns (cents: int, units: int, pence: int)
    requires price > 0.0
    ensures var quantity := OrderQuantity(decision, held, nav, price);
            && OrderValue(quantity, price) == pence as real / 100.0
            && -0.005 <= OrderValue(quantity, price) - quantity * price <= 0.005
    ensures TargetValue(decision.targetWeight, nav) == cents as real / 100.0
    ensures -0.005 <= TargetValue(decision.targetWeight, nav) - decision.targetWeight * nav <= 0.005
    ensures OrderQuantity(decision, held, nav, price) == units as real / 10000.0
  {
    cents := CentsNearest(decision.targetWeight * nav);
    units := (Abs(TargetValue(decision.targetWeight, nav) - held.value) / price * 10000.0).Floor;
    hide Cents;
    pence := CentsNearest(OrderQuantity(decision, held, nav, price) * price);
  }

  /** The instrument, the price and the week let the decision be sized at all. */
  predicate MayBeSized(decision: Decision, rule: Option<InstrumentRule>, snapshot: Option<PriceSnapshot>,
                       times: seq<int>, duplicate: bool, now: int)
  {
    && decision.action != Hold && !duplicate && ThisWeek(times, now) < 3
    && rule.Some? && (rule.value.kind.Stock? || rule.value.kind.Etf?)
    && snapshot.Some? && snapshot.value.ticker == decision.instrument
    && snapshot.value.priceGbp > 0.0 && snapshot.value.nativePrice > 0.0
    && 0 <= now - snapshot.value.observedAt <= 72 * HOUR
  }

  lemma SizedIff(decision: Decision, rule: Option<InstrumentRule>, snapshot: Option<PriceSnapshot>,
                 times: seq<int>, duplicate: bool, now: int)
    ensures EarlyViolations(decision, rule, snapshot, times, duplicate, now) == [] <==>
            MayBeSized(decision, rule, snapshot, times, duplicate, now)
  {
    hide ThisWeek;
  }

  /** A TICKET IS BUILT exactly when the decision may be sized, the NAV is positive, the order moves the position
      the way the decision says by at least a ten-thousandth of a share, and the limits hold. */
  lemma BuildsIff(decision: Decision, rule: Option<InstrumentRule>, snapshot: Option<PriceSnapshot>,
                  portfolio: Portfolio, times: seq<int>, duplicate: bool, now: int, id: string)
    ensures Built(decision, rule, snapshot, portfolio, times, duplicate, now, id).Ok? <==>
            && MayBeSized(decision, rule, snapshot, times, duplicate, now) && portfolio.Nav() > 0.0
            && (var held := FirstPosition(portfolio.positions, rule.value.ticker);
                var nav, price := portfolio.Nav(), snapshot.value.priceGbp;
                var target := TargetValue(decision.targetWeight, nav);
                var quantity := OrderQuantity(decision, held, nav, price);
                && (decision.action == Buy ==> target > held.value) && (decision.action == Sell ==> target < held.value)
                && quantity >= 0.0001
                && OrderAllowed(decision.action, rule.value, portfolio, held, quantity, OrderValue(quantity, price)))
  {
    SizedIff(decision, rule, snapshot, times, duplicate, now);
    hide EarlyViolations, OrderViolations, MayBeSized, TicketOf, OrderAllowed, OrderQuantity, OrderValue, TargetValue;
    if MayBeSized(decision, rule, snapshot, times, duplicate, now) && portfolio.Nav() > 0.0 {
      assert rule.Some? && snapshot.Some? && snapshot.value.priceGbp > 0.0 by {
        NoEarlyViolation(decision, rule, snapshot, times, duplicate, now);
      }
      OrderIff(decision, rule.value, snapshot.value.priceGbp, portfolio);
    }
  }

  lemma OrderIff(decision: Decision, rule: InstrumentRule, price: real, portfolio: Portfolio)
    requires price > 0.0 && portfolio.Nav() > 0.0
    ensures OrderViolations(decision, rule, price, portfolio) == [] <==>
            var held, nav := FirstPosition(portfolio.positions, rule.ticker), portfolio.Nav();
            var target := TargetValue(decision.targetWeight, nav);
            var quantity := OrderQuantity(decision, held, nav, price);
            && (decision.action == Buy ==> target > held.value) && (decision.action == Sell ==> target < held.value)
            && quantity >= 0.0001
            && OrderAllowed(decision.action, rule, portfolio, held, quantity, OrderValue(quantity, price))
  {
    var held, nav := FirstPosition(portfolio.positions, rule.ticker), portfolio.Nav();
    var quantity := OrderQuantity(decision, held, nav, price);
    var value := OrderValue(quantity, price);
    hide OrderValue, TargetValue, FirstPosition, FractionLimit, AbsoluteCap, PositionAllowed, OrderQuantity,
         WholeQuantity;
    PositionAllowedIff(rule, nav, Projected(decision.action, held, value));
  }

  /** WHAT A BUILT TICKET SAYS: bought quantities are positive and sold ones negative, the reference is the quoted
      price with three hundredths of it either way, and it expires a day after it was built. */
  lemma BuiltTicketSays(decision: Decision, rule: Option<InstrumentRule>, snapshot: Option<PriceSnapshot>,
                        portfolio: Portfolio, times: seq<int>, duplicate: bool, now: int, id: string)
    requires Built(decision, rule, snapshot, portfolio, times, duplicate, now, id).Ok?
    ensures var t := Built(decision, rule, snapshot, portfolio, times, duplicate, now, id).value;
            && rule.Some? && snapshot.Some? && snapshot.value.priceGbp > 0.0
            && (var held := FirstPosition(portfolio.positions, rule.value.ticker);
                var quantity := OrderQuantity(decision, held, portfolio.Nav(), snapshot.value.priceGbp);
                && (decision.action == Buy ==> t.quantity == quantity > 0.0)
                && (decision.action == Sell ==> t.quantity == -quantity < 0.0)
                && t.estimatedValue == OrderValue(quantity, snapshot.value.priceGbp))
            && t.id == id && t.side == decision.action != Hold && t.ticker == rule.value.ticker
            && t.createdAt == now && t.expiresAt == now + 24 * HOUR
            && t.referencePrice == snapshot.value.priceGbp && t.maxDeviation == 0.03
            && t.snapshotAt == snapshot.value.observedAt && t.targetWeight == decision.targetWeight
  {
    BuildsIff(decision, rule, snapshot, portfolio, times, duplicate, now, id);
    SizedIff(decision, rule, snapshot, times, duplicate, now);
    hide OrderQuantity, OrderValue, EarlyViolations, OrderViolations, OrderAllowed, ThisWeek, FirstPosition;
  }
}
