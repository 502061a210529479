/** The paper policy (src/predict_agent/policy.py): forecast, post-forecast books and ledger state
    in, one trade or one refusal out. Pure; every input arrives in `PolicyInputs`. */
module Policy {
  import opened Prelude
  import opened Time
  import opened Reals
  import opened Sums
  import opened Fills
  import opened PolicyParams

  datatype SideBook = SideBook(
    side: Side,
    snapshotId: nat,
    fetchedAt: int,
    asks: seq<AskLevel>,
    tickSize: real,
    minOrderSize: real,
    feesEnabled: bool,
    feeSchedule: Option<FeeSchedule>)

  datatype Bands = Bands(low: real, mid: real, high: real)

  /** `bands` and `confidence` are present exactly on forecasts that did not abstain. */
  datatype ForecastView = ForecastView(
    abstained: bool,
    bands: Option<Bands>,
    confidence: Option<Confidence>,
    rulesHash: string,
    endDate: Option<int>)

  /** What `validate_forecast` guarantees of stored probabilities
      (src/predict_agent/forecasts.py:111-128). */
  predicate ValidBands(b: Bands) {
    0.01 <= b.low <= b.mid <= b.high <= 0.99
  }

  predicate ValidForecastView(f: ForecastView) {
    !f.abstained ==> f.bands.Some? && ValidBands(f.bands.value)
  }

  /** Cost basis of the portfolio's open tickets, grouped as the caps are. */
  datatype Exposure = Exposure(market: real, event: real, category: real, total: real)

  datatype PolicyInputs = PolicyInputs(
    forecast: ForecastView,
    currentRulesHash: string,
    eligible: bool,
    resolutionStarted: bool,
    alreadyTraded: bool,
    books: map<Side, SideBook>,
    equity: real,
    availableCash: real,
    exposure: Exposure,
    now: int)

  datatype Refusal =
    | Abstained | RulesChanged | EligibilityLost | ResolutionStarted | AlreadyTraded | LowConfidence
    | ClosingSoon | NoBook | StaleBook | FeeRateUnknown | NoDepth | NoEdge | NoBudget
    | BookRefused(error: FillError) | BelowMinOrder | NoEdgeAfterFill

  datatype Decision =
    | Trade(side: Side, snapshotId: nat, q: real, bestAsk: real, budget: real, walk: Walk)
    | Refuse(reason: Refusal)
  {
    function Edge(): real
      requires Trade? && walk.shares != 0.0
    {
      q - walk.CostPerShare()
    }
  }

  function Kelly(q: real, price: real): real
    requires price != 1.0
  {
    (q - price) / (1.0 - price)
  }

  function SideProbability(b: Bands, source: ProbabilitySource, side: Side): real {
    match (source, side)
    case (Bounds, YES) => b.low
    case (Bounds, NO) => 1.0 - b.high
    case (Mid, YES) => b.mid
    case (Mid, NO) => 1.0 - b.mid
  }

  /** THE KELLY FRACTION of wealth, spent at this price, makes what is left worth q over p of it where the side
      wins, the rest and the payout of f over p together, and (1 - q) over (1 - p) where it loses. */
  lemma KellyWealth(q: real, price: real)
    requires price != 1.0
    ensures var f := Kelly(q, price); (1.0 - f) * price + f == q && (1.0 - f) * (1.0 - price) == 1.0 - q
  {
    var f := Kelly(q, price);
    DivMul(q - price, 1.0 - price);
    assert f * (1.0 - price) == q - price;
  }

  /** How likely this side is where YES has probability `p`. */
  function Chance(side: Side, p: real): real { if side == YES then p else 1.0 - p }

  /** UNDER BOUNDS a side is judged at the largest value that no probability of the band falls below. */
  lemma BoundsIsWorstCase(b: Bands, side: Side, q: real)
    requires b.low <= b.high
    ensures q <= SideProbability(b, Bounds, side) <==> forall p | b.low <= p <= b.high :: q <= Chance(side, p)
  {
    if forall p | b.low <= p <= b.high :: q <= Chance(side, p) {
      assert q <= Chance(side, b.low) && q <= Chance(side, b.high);
    }
  }

  /** UNDER MID the two sides' values sum to one, with YES at the middle of the band. */
  lemma MidIsFair(b: Bands)
    ensures SideProbability(b, Mid, YES) == b.mid
    ensures SideProbability(b, Mid, YES) + SideProbability(b, Mid, NO) == 1.0
  {
  }

  function Min(a: real, b: real): real { if a <= b then a else b }
  function Max(a: real, b: real): real { if a >= b then a else b }

  function Headroom(cap: real, equity: real, used: real): real {
    Max(0.0, cap * equity - used)
  }

  /** A stake cut down to every cap's headroom and the cash. */
  function CapBudget(stake: real, inputs: PolicyInputs, params: Params): real {
    var e := inputs.exposure;
    Max(0.0,
        Min(stake,
        Min(Headroom(params.capMarket, inputs.equity, e.market),
        Min(Headroom(params.capEvent, inputs.equity, e.event),
        Min(Headroom(params.capCategory, inputs.equity, e.category),
        Min(Headroom(params.capTotalOpen, inputs.equity, e.total),
            inputs.availableCash))))))
  }

  function Stake(q: real, ask: real, inputs: PolicyInputs, params: Params): real
    requires ask != 1.0
  {
    params.kellyFraction * Kelly(q, ask) * inputs.equity
  }

  function BudgetFor(q: real, ask: real, inputs: PolicyInputs, params: Params): real
    requires ask != 1.0
  {
    CapBudget(Stake(q, ask, inputs, params), inputs, params)
  }

  predicate StaleAge(book: SideBook, inputs: PolicyInputs, params: Params) {
    var age := inputs.now - book.fetchedAt;
    age > params.maxBookAgeSeconds * SECOND || age < 0
  }

  predicate Unpriced(book: SideBook) {
    book.feesEnabled && FeeRate(book.feeSchedule) == None
  }

  function BookGate(book: SideBook, inputs: PolicyInputs, params: Params): Option<Refusal> {
    if StaleAge(book, inputs, params) then Some(StaleBook)
    else if Unpriced(book) then Some(FeeRateUnknown)
    else None
  }

  /** Refusals that do not depend on the book walk. */
  function Gate(inputs: PolicyInputs, params: Params): Option<Refusal> {
    var f := inputs.forecast;
    if f.abstained then Some(Abstained)
    else if f.rulesHash != inputs.currentRulesHash then Some(RulesChanged)
    else if !inputs.eligible then Some(EligibilityLost)
    else if inputs.resolutionStarted then Some(ResolutionStarted)
    else if inputs.alreadyTraded then Some(AlreadyTraded)
    else if (if f.confidence.Some? then Rank(f.confidence.value) else -1) < Rank(params.minConfidence)
    then Some(LowConfidence)
    else if f.endDate == None || f.endDate.value - inputs.now < params.minHoursToClose * HOUR
    then Some(ClosingSoon)
    else if inputs.books.Keys != {YES, NO} then Some(NoBook)
    else match BookGate(inputs.books[YES], inputs, params)
      case Some(reason) => Some(reason)
      case None => BookGate(inputs.books[NO], inputs, params)
  }

  function Rate(book: SideBook): (r: real)
    requires !Unpriced(book)
    ensures GoodRate(r)
  {
    if !book.feesEnabled then 0.0 else FeeRate(book.feeSchedule).value
  }

  /** The lowest ask. */
  function BestAsk(asks: seq<AskLevel>): (p: real)
    requires asks != []
    ensures exists l :: l in asks && l.price == p
    ensures forall l | l in asks :: p <= l.price
  {
    if |asks| == 1 then assert asks[0] in asks; asks[0].price
    else
      var rest := BestAsk(asks[1..]);
      assert exists l :: l in asks[1..] && l.price == rest;
      if asks[0].price <= rest then assert asks[0] in asks; asks[0].price else rest
  }

  function Limit(bestAsk: real, params: Params): real {
    bestAsk * (1.0 + params.maxSlippage)
  }

  function TrySide(book: SideBook, q: real, inputs: PolicyInputs, params: Params): (d: Decision)
    requires !Unpriced(book) && q <= 1.0 && params.minEdge > 0.0
    ensures d.Trade? ==> d.walk.shares > 0.0
  {
    if book.asks == [] then Refuse(NoDepth)
    else
      var rate := Rate(book);
      var ask := BestAsk(book.asks);
      var provisional := q - ask - FeePerShare(ask, rate);
      if provisional < params.minEdge then Refuse(NoEdge)
      else
        assert ask != 1.0;
        var budget := BudgetFor(q, ask, inputs, params);
        if budget <= 0.0 then Refuse(NoBudget)
        else match WalkAnswer(book.asks, budget, rate, Limit(ask, params), book.tickSize)
          case Refused(error) => Refuse(BookRefused(error))
          case Walked(walk) =>
            if walk.shares <= 0.0 then Refuse(NoDepth)
            else if walk.shares < book.minOrderSize || walk.Cost() < book.minOrderSize then Refuse(BelowMinOrder)
            else
              var trade := Trade(book.side, book.snapshotId, q, ask, budget, walk);
              if trade.Edge() < params.minEdge then Refuse(NoEdgeAfterFill) else trade
  }

  /** At most one side per market: the side with the larger realized edge, YES on a tie. */
  function Decide(inputs: PolicyInputs, params: Params): Decision
    requires ValidForecastView(inputs.forecast) && ValidParams(params)
  {
    match Gate(inputs, params)
    case Some(reason) => Refuse(reason)
    case None =>
      var bands := inputs.forecast.bands.value;
      var yes := TrySide(inputs.books[YES], SideProbability(bands, params.probability, YES), inputs, params);
      var no := TrySide(inputs.books[NO], SideProbability(bands, params.probability, NO), inputs, params);
      match (yes, no)
      case (Trade(_, _, _, _, _, _), Trade(_, _, _, _, _, _)) => if yes.Edge() >= no.Edge() then yes else no
      case (Trade(_, _, _, _, _, _), Refuse(_)) => yes
      case (Refuse(_), Trade(_, _, _, _, _, _)) => no
      case (Refuse(a), Refuse(b)) => if a != NoEdge then Refuse(a) else Refuse(b)
  }

  // ---------- what a trade means ----------

  /** Everything the ledger and its auditor later rely on about a trade. */
  ghost predicate SoundTrade(d: Decision, book: SideBook, inputs: PolicyInputs, params: Params)
    requires d.Trade?
  {
    && d.snapshotId == book.snapshotId
    && book.asks != [] && !Unpriced(book) && !StaleAge(book, inputs, params)
    && GoodBook(book.asks) && GoodBook(SortByPrice(book.asks))
    && d.bestAsk == BestAsk(book.asks)
    && d.budget > 0.0
    && d.walk == WalkOf(Greedy(SortByPrice(book.asks), d.budget, Rate(book), Limit(d.bestAsk, params)), Rate(book))
    && d.walk.fills != [] && d.walk.shares > 0.0
    && PrefixOfBook(d.walk.fills, SortByPrice(book.asks), Limit(d.bestAsk, params))
    && 0.0 <= d.walk.fee && d.walk.Cost() <= d.budget
    && d.Edge() >= params.minEdge
    && book.minOrderSize <= d.walk.shares && book.minOrderSize <= d.walk.Cost()
    && WithinCaps(d.walk.Cost(), inputs, params)
  }

  /** Buying at this cost leaves every exposure within its cap and the cash non-negative. */
  ghost predicate WithinCaps(cost: real, inputs: PolicyInputs, params: Params) {
    && inputs.exposure.market + cost <= params.capMarket * inputs.equity
    && inputs.exposure.event + cost <= params.capEvent * inputs.equity
    && inputs.exposure.category + cost <= params.capCategory * inputs.equity
    && inputs.exposure.total + cost <= params.capTotalOpen * inputs.equity
    && cost <= inputs.availableCash
  }

  lemma HeadroomBound(cap: real, equity: real, used: real, cost: real)
    requires 0.0 < Headroom(cap, equity, used) && cost <= Headroom(cap, equity, used)
    ensures used + cost <= cap * equity
  {
  }

  lemma BudgetAtMost(stake: real, inputs: PolicyInputs, params: Params)
    requires 0.0 < CapBudget(stake, inputs, params)
    ensures var e, least := inputs.exposure, CapBudget(stake, inputs, params);
            && least <= Headroom(params.capMarket, inputs.equity, e.market)
            && least <= Headroom(params.capEvent, inputs.equity, e.event)
            && least <= Headroom(params.capCategory, inputs.equity, e.category)
            && least <= Headroom(params.capTotalOpen, inputs.equity, e.total)
            && least <= inputs.availableCash
            && 0.0 < Headroom(params.capMarket, inputs.equity, e.market)
            && 0.0 < Headroom(params.capEvent, inputs.equity, e.event)
            && 0.0 < Headroom(params.capCategory, inputs.equity, e.category)
            && 0.0 < Headroom(params.capTotalOpen, inputs.equity, e.total)
  {
    hide Headroom;
    var e := inputs.exposure;
    LeastOfSix(CapBudget(stake, inputs, params), stake,
               Headroom(params.capMarket, inputs.equity, e.market),
               Headroom(params.capEvent, inputs.equity, e.event),
               Headroom(params.capCategory, inputs.equity, e.category),
               Headroom(params.capTotalOpen, inputs.equity, e.total), inputs.availableCash);
  }

  lemma HeadroomLargest(cap: real, equity: real, used: real, x: real)
    requires x > 0.0
    ensures x <= Headroom(cap, equity, used) <==> used + x <= cap * equity
  {
  }

  lemma LeastIsLargest(x: real, stake: real, a: real, b: real, c: real, d: real, cash: real)
    requires x > 0.0
    ensures x <= Max(0.0, Min(stake, Min(a, Min(b, Min(c, Min(d, cash)))))) <==>
            x <= stake && x <= a && x <= b && x <= c && x <= d && x <= cash
  {
  }

  /** The budget is the most that may be spent: a positive amount is within it exactly when it is within
      the stake, the cash and every cap, on top of what is already exposed. */
  lemma BudgetIsLargest(stake: real, amount: real, inputs: PolicyInputs, params: Params)
    requires amount > 0.0
    ensures amount <= CapBudget(stake, inputs, params) <==> amount <= stake && WithinCaps(amount, inputs, params)
  {
    hide Headroom, Max, Min;
    var e := inputs.exposure;
    HeadroomLargest(params.capMarket, inputs.equity, e.market, amount);
    HeadroomLargest(params.capEvent, inputs.equity, e.event, amount);
    HeadroomLargest(params.capCategory, inputs.equity, e.category, amount);
    HeadroomLargest(params.capTotalOpen, inputs.equity, e.total, amount);
    LeastIsLargest(amount, stake, Headroom(params.capMarket, inputs.equity, e.market),
                   Headroom(params.capEvent, inputs.equity, e.event),
                   Headroom(params.capCategory, inputs.equity, e.category),
                   Headroom(params.capTotalOpen, inputs.equity, e.total), inputs.availableCash);
  }

  lemma BudgetWithinCaps(stake: real, cost: real, inputs: PolicyInputs, params: Params)
    requires 0.0 < CapBudget(stake, inputs, params) && cost <= CapBudget(stake, inputs, params)
    ensures WithinCaps(cost, inputs, params)
  {
    hide CapBudget, Headroom;
    var e := inputs.exposure;
    BudgetAtMost(stake, inputs, params);
    HeadroomBound(params.capMarket, inputs.equity, e.market, cost);
    HeadroomBound(params.capEvent, inputs.equity, e.event, cost);
    HeadroomBound(params.capCategory, inputs.equity, e.category, cost);
    HeadroomBound(params.capTotalOpen, inputs.equity, e.total, cost);
  }

  lemma BudgetForWithinCaps(q: real, ask: real, cost: real, inputs: PolicyInputs, params: Params)
    requires ask != 1.0
    requires 0.0 < BudgetFor(q, ask, inputs, params) && cost <= BudgetFor(q, ask, inputs, params)
    ensures WithinCaps(cost, inputs, params)
  {
    hide CapBudget, WithinCaps, Stake;
    BudgetWithinCaps(Stake(q, ask, inputs, params), cost, inputs, params);
  }

  lemma LeastOfSix(cost: real, kelly: real, a: real, b: real, c: real, d: real, cash: real)
    requires var least := Max(0.0, Min(kelly, Min(a, Min(b, Min(c, Min(d, cash))))));
             0.0 < least && cost <= least
    ensures cost <= a && cost <= b && cost <= c && cost <= d && cost <= cash
    ensures 0.0 < a && 0.0 < b && 0.0 < c && 0.0 < d
  {
  }

  lemma {:induction false} FeesNonNegative(fills: seq<Fill>, rate: real)
    requires GoodRate(rate)
    requires forall f | f in fills :: 0.0 < f.price < 1.0 && f.shares > 0.0
    ensures SumOf(fills, FillFee(rate)) >= 0.0
  {
    if fills != [] {
      UnitCostBounds(fills[0].price, rate);
      MulSign(fills[0].shares, FeePerShare(fills[0].price, rate));
      FeesNonNegative(fills[1..], rate);
    }
  }

  /** The walk behind a trade. */
  lemma TrySideWalk(book: SideBook, q: real, inputs: PolicyInputs, params: Params)
    requires !Unpriced(book) && q <= 1.0 && params.minEdge > 0.0
    requires TrySide(book, q, inputs, params).Trade?
    ensures var d := TrySide(book, q, inputs, params);
            && d.side == book.side && d.snapshotId == book.snapshotId && d.q == q
            && book.asks != [] && d.bestAsk == BestAsk(book.asks) && d.bestAsk != 1.0
            && d.budget == BudgetFor(q, d.bestAsk, inputs, params) > 0.0
            && WalkAnswer(book.asks, d.budget, Rate(book), Limit(d.bestAsk, params), book.tickSize) == Walked(d.walk)
            && d.Edge() >= params.minEdge
            && book.minOrderSize <= d.walk.shares && book.minOrderSize <= d.walk.Cost()
  {
  }

  lemma WalkSound(asks: seq<AskLevel>, budget: real, rate: real, limit: real, tick: real)
    requires WalkAnswer(asks, budget, rate, limit, tick).Walked?
    ensures budget >= 0.0 && GoodRate(rate)
    ensures GoodBook(asks) && GoodBook(SortByPrice(asks))
    ensures var walk := WalkAnswer(asks, budget, rate, limit, tick).walk;
            && walk == WalkOf(Greedy(SortByPrice(asks), budget, rate, limit), rate)
            && PrefixOfBook(walk.fills, SortByPrice(asks), limit)
            && walk.fee >= 0.0 && walk.Cost() <= budget
  {
    var levels := SortByPrice(asks);
    SortCorrect(asks);
    var fills := Greedy(levels, budget, rate, limit);
    GreedyShape(levels, budget, rate, limit);
    GreedyCost(levels, budget, rate, limit);
    forall f | f in fills
      ensures 0.0 < f.price < 1.0 && f.shares > 0.0
    {
      var i :| 0 <= i < |fills| && fills[i] == f;
      assert levels[i] in levels;
    }
    FeesNonNegative(fills, rate);
  }

  lemma TrySideSound(book: SideBook, q: real, inputs: PolicyInputs, params: Params)
    requires !Unpriced(book) && q <= 1.0 && params.minEdge > 0.0 && !StaleAge(book, inputs, params)
    requires TrySide(book, q, inputs, params).Trade?
    ensures SoundTrade(TrySide(book, q, inputs, params), book, inputs, params)
  {
    TrySideWalk(book, q, inputs, params);
    var d := TrySide(book, q, inputs, params);
    WalkSound(book.asks, d.budget, Rate(book), Limit(d.bestAsk, params), book.tickSize);
    BudgetForWithinCaps(q, d.bestAsk, d.walk.Cost(), inputs, params);
  }

  lemma SideProbabilityBound(b: Bands, source: ProbabilitySource, side: Side)
    requires ValidBands(b)
    ensures 0.01 <= SideProbability(b, source, side) <= 0.99
  {
  }

  /** What a side is judged at: YES at the low end of the band, NO at the complement of the high end, or
      both at the middle. */
  ghost predicate JudgedAt(b: Bands, source: ProbabilitySource, side: Side, q: real) {
    q == match side
         case YES => if source == Bounds then b.low else b.mid
         case NO => 1.0 - if source == Bounds then b.high else b.mid
  }

  lemma JudgedAtIff(b: Bands, source: ProbabilitySource, side: Side, q: real)
    ensures JudgedAt(b, source, side, q) <==> q == SideProbability(b, source, side)
  {
  }

  /** A trade is its side's own answer; no tradable side had a larger edge, and on a tie YES is taken. */
  lemma DecideIsBestSide(inputs: PolicyInputs, params: Params)
    requires ValidForecastView(inputs.forecast) && ValidParams(params)
    requires forall side | side in inputs.books :: inputs.books[side].side == side
    requires Decide(inputs, params).Trade?
    ensures Gate(inputs, params) == None && inputs.books.Keys == {YES, NO}
    ensures var d, b := Decide(inputs, params), inputs.forecast.bands.value;
            && d.side in inputs.books && JudgedAt(b, params.probability, d.side, d.q)
            && (forall side, q | side in inputs.books && JudgedAt(b, params.probability, side, q) ::
                  && !Unpriced(inputs.books[side]) && !StaleAge(inputs.books[side], inputs, params) && q <= 1.0
                  && var other := TrySide(inputs.books[side], q, inputs, params);
                  && (side == d.side ==> d == other)
                  && (other.Trade? ==> other.Edge() <= d.Edge())
                  && (other.Trade? && side == YES && d.side == NO ==> other.Edge() < d.Edge()))
  {
    var bands := inputs.forecast.bands.value;
    var yes := TrySide(inputs.books[YES], SideProbability(bands, params.probability, YES), inputs, params);
    var no := TrySide(inputs.books[NO], SideProbability(bands, params.probability, NO), inputs, params);
    if yes.Trade? {
      TrySideWalk(inputs.books[YES], SideProbability(bands, params.probability, YES), inputs, params);
    }
    if no.Trade? {
      TrySideWalk(inputs.books[NO], SideProbability(bands, params.probability, NO), inputs, params);
    }
    hide TrySide, StaleAge, Unpriced;
    forall side, q | side in inputs.books && JudgedAt(bands, params.probability, side, q)
      ensures q == SideProbability(bands, params.probability, side) <= 1.0
    {
      JudgedAtIff(bands, params.probability, side, q);
      SideProbabilityBound(bands, params.probability, side);
    }
  }

  /** The book was fetched no longer ago than the policy allows, and its fees, if any, are linear taker fees. */
  ghost predicate UsableBook(book: SideBook, now: int, maxAgeSeconds: int) {
    && 0 <= now - book.fetchedAt <= maxAgeSeconds * SECOND
    && (book.feesEnabled ==>
          && book.feeSchedule.Some? && book.feeSchedule.value.exponent == 1 && book.feeSchedule.value.takerOnly
          && book.feeSchedule.value.rate.Some? && 0.0 <= book.feeSchedule.value.rate.value < 1.0)
  }

  lemma UsableBookIff(book: SideBook, inputs: PolicyInputs, params: Params)
    ensures UsableBook(book, inputs.now, params.maxBookAgeSeconds) <==>
            !StaleAge(book, inputs, params) && !Unpriced(book)
  {
  }

  ghost predicate Confident(c: Option<Confidence>, least: Confidence) {
    c.Some? && (c.value == High || least == Low || c.value == least)
  }

  /** Nothing stands in the way of a trade but the books' own prices and depth. */
  ghost predicate Tradable(inputs: PolicyInputs, params: Params) {
    var f := inputs.forecast;
    && !f.abstained && f.rulesHash == inputs.currentRulesHash
    && inputs.eligible && !inputs.resolutionStarted && !inputs.alreadyTraded
    && Confident(f.confidence, params.minConfidence)
    && f.endDate.Some? && params.minHoursToClose * HOUR <= f.endDate.value - inputs.now
    && inputs.books.Keys == {YES, NO}
    && forall side | side in inputs.books :: UsableBook(inputs.books[side], inputs.now, params.maxBookAgeSeconds)
  }

  /** The gate is open exactly when every standing condition holds, of both books. */
  lemma GateOpenIff(inputs: PolicyInputs, params: Params)
    ensures Gate(inputs, params) == None <==> Tradable(inputs, params)
  {
    forall side | side in inputs.books
      ensures UsableBook(inputs.books[side], inputs.now, params.maxBookAgeSeconds) <==>
              !StaleAge(inputs.books[side], inputs, params) && !Unpriced(inputs.books[side])
    {
      UsableBookIff(inputs.books[side], inputs, params);
    }
    hide StaleAge, Unpriced, UsableBook;
    if inputs.books.Keys == {YES, NO} {
      assert YES in inputs.books.Keys && NO in inputs.books.Keys;
    }
  }

  /** WHICH REFUSAL: the first of the standing conditions that fails, in this order. */
  lemma GateReason(inputs: PolicyInputs, params: Params)
    ensures var f, gate := inputs.forecast, Gate(inputs, params);
            var ruled := !f.abstained && f.rulesHash == inputs.currentRulesHash;
            var unresolved := ruled && inputs.eligible && !inputs.resolutionStarted;
            var confident := unresolved && !inputs.alreadyTraded && Confident(f.confidence, params.minConfidence);
            var timely := confident && f.endDate.Some?
                          && params.minHoursToClose * HOUR <= f.endDate.value - inputs.now;
            && (gate == Some(Abstained) <==> f.abstained)
            && (gate == Some(RulesChanged) <==> !f.abstained && f.rulesHash != inputs.currentRulesHash)
            && (gate == Some(EligibilityLost) <==> ruled && !inputs.eligible)
            && (gate == Some(ResolutionStarted) <==> ruled && inputs.eligible && inputs.resolutionStarted)
            && (gate == Some(AlreadyTraded) <==> unresolved && inputs.alreadyTraded)
            && (gate == Some(LowConfidence) <==>
                  unresolved && !inputs.alreadyTraded && !Confident(f.confidence, params.minConfidence))
            && (gate == Some(ClosingSoon) <==> confident && !timely)
            && (gate == Some(NoBook) <==> timely && inputs.books.Keys != {YES, NO})
            && (gate == Some(StaleBook) || gate == Some(FeeRateUnknown) <==>
                  timely && inputs.books.Keys == {YES, NO} && !Tradable(inputs, params))
            && (timely && inputs.books.Keys == {YES, NO} ==> FirstBookReason(inputs, params, gate))
  {
    GateOpenIff(inputs, params);
    hide StaleAge, Unpriced, UsableBook;
    if inputs.books.Keys == {YES, NO} {
      assert YES in inputs.books.Keys && NO in inputs.books.Keys;
      UsableBookIff(inputs.books[YES], inputs, params);
      BookReason(inputs.books[YES], inputs, params);
      BookReason(inputs.books[NO], inputs, params);
    }
  }

  /** The YES book's reason where it has one, and otherwise the NO book's. */
  ghost predicate FirstBookReason(inputs: PolicyInputs, params: Params, gate: Option<Refusal>)
    requires inputs.books.Keys == {YES, NO}
  {
    assert YES in inputs.books.Keys && NO in inputs.books.Keys;
    var book := inputs.books[if UsableBook(inputs.books[YES], inputs.now, params.maxBookAgeSeconds) then NO else YES];
    var age := inputs.now - book.fetchedAt;
    && (gate == Some(StaleBook) <==> !(0 <= age <= params.maxBookAgeSeconds * SECOND))
    && (gate == Some(FeeRateUnknown) <==>
          0 <= age <= params.maxBookAgeSeconds * SECOND && !UsableBook(book, inputs.now, params.maxBookAgeSeconds))
  }

  lemma BookReason(book: SideBook, inputs: PolicyInputs, params: Params)
    ensures var age, reason := inputs.now - book.fetchedAt, BookGate(book, inputs, params);
            && (reason == Some(StaleBook) <==> !(0 <= age <= params.maxBookAgeSeconds * SECOND))
            && (reason == Some(FeeRateUnknown) <==>
                  0 <= age <= params.maxBookAgeSeconds * SECOND
                  && !UsableBook(book, inputs.now, params.maxBookAgeSeconds))
            && (reason == None <==> UsableBook(book, inputs.now, params.maxBookAgeSeconds))
  {
  }

  /** A trade is made exactly when nothing stands in the way and at least one side is tradable. */
  lemma DecideTradesIff(inputs: PolicyInputs, params: Params)
    requires ValidForecastView(inputs.forecast) && ValidParams(params)
    ensures Decide(inputs, params).Trade? <==>
            Tradable(inputs, params)
            && exists side, q ::
                 && JudgedAt(inputs.forecast.bands.value, params.probability, side, q)
                 && q <= 1.0 && !Unpriced(inputs.books[side])
                 && TrySide(inputs.books[side], q, inputs, params).Trade?
  {
    GateOpenIff(inputs, params);
    hide TrySide, Tradable, UsableBook, StaleAge, Unpriced, Confident;
    if Gate(inputs, params) == None {
      var b := inputs.forecast.bands.value;
      forall side
        ensures SideProbability(b, params.probability, side) <= 1.0
        ensures JudgedAt(b, params.probability, side, SideProbability(b, params.probability, side))
      {
        SideProbabilityBound(b, params.probability, side);
      }
    }
  }

  /** A TRADE IS SOUND: it comes from its own side's fresh, priced book, never exceeds any cap or
      the cash, and keeps at least the minimum edge after fees. */
  lemma DecideSound(inputs: PolicyInputs, params: Params)
    requires ValidForecastView(inputs.forecast) && ValidParams(params)
    requires forall side | side in inputs.books :: inputs.books[side].side == side
    requires Decide(inputs, params).Trade?
    ensures var d := Decide(inputs, params);
            && d.side in inputs.books
            && SoundTrade(d, inputs.books[d.side], inputs, params)
  {
    DecideIsBestSide(inputs, params);
    var d := Decide(inputs, params);
    var q := SideProbability(inputs.forecast.bands.value, params.probability, d.side);
    SideProbabilityBound(inputs.forecast.bands.value, params.probability, d.side);
    TrySideSound(inputs.books[d.side], q, inputs, params);
  }
}
