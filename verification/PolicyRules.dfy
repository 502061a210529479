/** When a side trades and what a trade is worth, in the books' and the policy's own columns
    (src/predict_agent/policy.py:87-220). */
module PolicyRules {
  import opened Prelude
  import opened Reals
  import opened Sums
  import opened Fills
  import opened PolicyParams
  import opened Policy
  import opened Schema
  import opened Tickets
  import opened Paper

  // ---------- the budget ----------

  /** An amount is within the policy's fraction of the Kelly stake: spending it risks, at this ask, no more than
      that fraction of equity times the forecast's lead over the ask. */
  predicate WithinStake(amount: real, q: real, ask: real, fraction: real, equity: real) {
    amount * (1.0 - ask) <= fraction * (q - ask) * equity
  }

  /** THE BUDGET at an ask is the most that may be spent: within the policy's fraction of the Kelly stake, the
      cash, and each cap on top of what is exposed. */
  lemma BudgetAllows(q: real, ask: real, amount: real, inputs: PolicyInputs, params: Params)
    requires 0.0 < ask < 1.0 && amount > 0.0
    ensures amount <= BudgetFor(q, ask, inputs, params) <==>
            WithinStake(amount, q, ask, params.kellyFraction, inputs.equity) && WithinCaps(amount, inputs, params)
  {
    hide CapBudget, Stake, WithinStake, WithinCaps;
    StakeAllows(q, ask, amount, inputs, params);
    BudgetIsLargest(Stake(q, ask, inputs, params), amount, inputs, params);
  }

  lemma StakeAllows(q: real, ask: real, amount: real, inputs: PolicyInputs, params: Params)
    requires 0.0 < ask < 1.0
    ensures amount <= Stake(q, ask, inputs, params) <==>
            WithinStake(amount, q, ask, params.kellyFraction, inputs.equity)
  {
    var stake, k := Stake(q, ask, inputs, params), Kelly(q, ask);
    DivMul(q - ask, 1.0 - ask);
    hide Kelly;
    ProductOfStake(params.kellyFraction, k, inputs.equity, 1.0 - ask, q - ask);
    ScaledOrder(amount, stake, 1.0 - ask);
  }

  lemma ProductOfStake(f: real, k: real, e: real, c: real, kc: real)
    requires k * c == kc
    ensures f * k * e * c == f * kc * e
  {
    assert f * k * e * c == f * (k * c) * e;
  }

  lemma ScaledOrder(a: real, b: real, c: real)
    requires c > 0.0
    ensures a <= b <==> a * c <= b * c
  {
    if a <= b {
      MulMono(a, b, c);
    } else {
      MulStrict(b, a, c);
    }
  }

  // ---------- what a walk costs at least ----------

  /** What this many shares cost at this much each. */
  function Worth(perShare: real, shares: real): real { perShare * shares }

  lemma WorthAdds(perShare: real, a: real, b: real)
    ensures Worth(perShare, a + b) == Worth(perShare, a) + Worth(perShare, b)
  {
  }

  lemma FillCostsAtLeast(f: Fill, rate: real, unit: real)
    requires f.shares >= 0.0 && unit <= UnitCost(f.price, rate)
    ensures Worth(unit, f.shares) <= Charge(f, rate)
  {
    hide FeePerShare;
    MulMono(unit, UnitCost(f.price, rate), f.shares);
    Distribute(f.shares, f.price, FeePerShare(f.price, rate));
  }

  lemma {:induction false} FillsCostAtLeast(fills: seq<Fill>, rate: real, unit: real)
    requires forall f | f in fills :: f.shares >= 0.0 && unit <= UnitCost(f.price, rate)
    ensures Worth(unit, SumOf(fills, FillShares())) <= SumOf(fills, FillNotional()) + SumOf(fills, FillFee(rate))
  {
    if fills == [] {
      assert Worth(unit, 0.0) == 0.0;
    } else {
      var f, rest := fills[0], fills[1..];
      FillCostsAtLeast(f, rate, unit);
      hide Worth, UnitCost, LevelFee;
      FillsCostAtLeast(rest, rate, unit);
      WorthAdds(unit, f.shares, SumOf(rest, FillShares()));
    }
  }

  /** No fill is below the best ask. */
  lemma FillsFromBestAsk(asks: seq<AskLevel>, budget: real, rate: real, limit: real, tick: real)
    requires asks != [] && WalkAnswer(asks, budget, rate, limit, tick).Walked?
    ensures 0.0 < BestAsk(asks) < 1.0 && GoodRate(rate)
    ensures forall f | f in WalkAnswer(asks, budget, rate, limit, tick).walk.fills ::
              BestAsk(asks) <= f.price < 1.0 && f.shares > 0.0
  {
    hide WalkAnswer, Greedy;
    WalkSound(asks, budget, rate, limit, tick);
    var fills, levels := WalkAnswer(asks, budget, rate, limit, tick).walk.fills, SortByPrice(asks);
    var best := BestAsk(asks);
    assert exists l :: l in asks && l.price == best;
    forall f | f in fills
      ensures best <= f.price < 1.0 && f.shares > 0.0
    {
      var i :| 0 <= i < |fills| && fills[i] == f;
      assert levels[i] in levels;
    }
  }

  /** A walk is at least as dear, a share, as the best ask and its fee. */
  lemma WalkCostAtLeast(asks: seq<AskLevel>, budget: real, rate: real, limit: real, tick: real)
    requires asks != [] && WalkAnswer(asks, budget, rate, limit, tick).Walked?
    ensures var walk := WalkAnswer(asks, budget, rate, limit, tick).walk;
            Worth(UnitCost(BestAsk(asks), rate), walk.shares) <= walk.notional + walk.fee
  {
    hide WalkAnswer, Greedy, UnitCost, Worth, SortByPrice, BestAsk, PrefixOfBook, GoodBook, FillFee, FillNotional,
         FillShares;
    FillsFromBestAsk(asks, budget, rate, limit, tick);
    WalkSound(asks, budget, rate, limit, tick);
    var fills := WalkAnswer(asks, budget, rate, limit, tick).walk.fills;
    var best := BestAsk(asks);
    forall f | f in fills
      ensures f.shares >= 0.0 && UnitCost(best, rate) <= UnitCost(f.price, rate)
    {
      if best < f.price {
        UnitCostIncreasing(best, f.price, rate);
      }
    }
    FillsCostAtLeast(fills, rate, UnitCost(best, rate));
  }

  // ---------- when a side trades ----------

  /** Each share of the walk costs, fees included, at least this edge less than `q`. */
  predicate KeepsEdge(walk: Walk, q: real, edge: real) {
    walk.notional + walk.fee <= (q - edge) * walk.shares
  }

  lemma KeepsEdgeIff(walk: Walk, q: real, edge: real)
    requires walk.shares > 0.0
    ensures KeepsEdge(walk, q, edge) <==> q - walk.CostPerShare() >= edge
  {
    var cost := walk.notional + walk.fee;
    DivMul(cost, walk.shares);
    ScaledOrder(cost / walk.shares, q - edge, walk.shares);
  }

  lemma EdgeAtLeast(walk: Walk, q: real, r: real, edge: real)
    requires walk.shares >= 0.0 && q <= r && KeepsEdge(walk, q, edge)
    ensures KeepsEdge(walk, r, edge)
  {
    MulMono(q - edge, r - edge, walk.shares);
  }

  /** The dearest price a walk from this ask may pay. */
  function Slipped(ask: real, slippage: real): real { ask + ask * slippage }

  /** The walk the side's budget buys, up to the slippage limit. */
  ghost predicate SideWalks(book: SideBook, q: real, inputs: PolicyInputs, params: Params, walk: Walk)
    requires !Unpriced(book) && book.asks != []
  {
    var ask := BestAsk(book.asks);
    && 0.0 < ask < 1.0 && BudgetFor(q, ask, inputs, params) > 0.0
    && WalkAnswer(book.asks, BudgetFor(q, ask, inputs, params), Rate(book), Slipped(ask, params.maxSlippage),
                  book.tickSize) == Walked(walk)
  }

  /** It buys shares, no fewer than the minimum order by either reading, and keeps the edge. */
  predicate WorthBuying(book: SideBook, q: real, params: Params, walk: Walk) {
    && walk.shares > 0.0 && walk.shares >= book.minOrderSize && walk.notional + walk.fee >= book.minOrderSize
    && KeepsEdge(walk, q, params.minEdge)
  }

  /** A SIDE TRADES exactly when its budget buys shares within the slippage limit, no fewer than the minimum
      order, each at least the minimum edge cheaper than it is judged to be worth, fees included. That the best
      ask alone keeps the edge follows. */
  lemma SideTradesIff(book: SideBook, q: real, inputs: PolicyInputs, params: Params)
    requires !Unpriced(book) && q <= 1.0 && params.minEdge > 0.0
    ensures TrySide(book, q, inputs, params).Trade? <==>
            book.asks != []
            && exists walk :: SideWalks(book, q, inputs, params, walk) && WorthBuying(book, q, params, walk)
    ensures var d := TrySide(book, q, inputs, params);
            d.Trade? ==> book.asks != [] && SideWalks(book, q, inputs, params, d.walk)
                         && d.side == book.side && d.q == q && d.snapshotId == book.snapshotId
  {
    var d := TrySide(book, q, inputs, params);
    if d.Trade? {
      TradeWalks(book, q, inputs, params);
    }
    hide TrySide, SideWalks, WorthBuying;
    if book.asks != [] {
      if walk :| SideWalks(book, q, inputs, params, walk) && WorthBuying(book, q, params, walk) {
        KeptEdge(book, q, inputs, params, walk);
      }
    }
  }

  lemma LimitIs(ask: real, params: Params)
    ensures Limit(ask, params) == Slipped(ask, params.maxSlippage)
  {
  }

  lemma TradeWalks(book: SideBook, q: real, inputs: PolicyInputs, params: Params)
    requires !Unpriced(book) && q <= 1.0 && params.minEdge > 0.0 && TrySide(book, q, inputs, params).Trade?
    ensures var d := TrySide(book, q, inputs, params);
            && book.asks != [] && SideWalks(book, q, inputs, params, d.walk) && WorthBuying(book, q, params, d.walk)
            && d.side == book.side && d.q == q && d.snapshotId == book.snapshotId
  {
    TrySideWalk(book, q, inputs, params);
    var d := TrySide(book, q, inputs, params);
    hide TrySide, WalkAnswer, BudgetFor, Limit, KeepsEdge, Rate, Unpriced, Slipped, Walk.CostPerShare, BestAsk;
    LimitIs(d.bestAsk, params);
    FillsFromBestAsk(book.asks, d.budget, Rate(book), Limit(d.bestAsk, params), book.tickSize);
    KeepsEdgeIff(d.walk, q, params.minEdge);
  }

  lemma KeptEdge(book: SideBook, q: real, inputs: PolicyInputs, params: Params, walk: Walk)
    requires !Unpriced(book) && q <= 1.0 && params.minEdge > 0.0 && book.asks != []
    requires SideWalks(book, q, inputs, params, walk) && WorthBuying(book, q, params, walk)
    ensures TrySide(book, q, inputs, params).Trade?
  {
    hide WalkAnswer, Rate, BudgetFor, Limit, KeepsEdge, Unpriced, Slipped;
    var ask, rate := BestAsk(book.asks), Rate(book);
    LimitIs(ask, params);
    WalkCostAtLeast(book.asks, BudgetFor(q, ask, inputs, params), rate, Limit(ask, params), book.tickSize);
    BestAskKeepsEdge(walk, UnitCost(ask, rate), q, params.minEdge);
    KeepsEdgeIff(walk, q, params.minEdge);
    hide FeePerShare, Walk.CostPerShare, Worth;
  }

  lemma BestAskKeepsEdge(walk: Walk, unit: real, q: real, edge: real)
    requires walk.shares > 0.0 && Worth(unit, walk.shares) <= walk.notional + walk.fee && KeepsEdge(walk, q, edge)
    ensures q - unit >= edge
  {
    ScaledOrder(unit, q - edge, walk.shares);
  }

  /** WHICH REFUSAL of a side that does not trade, in this order. */
  lemma SideReason(book: SideBook, q: real, inputs: PolicyInputs, params: Params)
    requires !Unpriced(book) && q <= 1.0 && params.minEdge > 0.0 && TrySide(book, q, inputs, params).Refuse?
    ensures var reason := TrySide(book, q, inputs, params).reason;
            if book.asks == [] then reason == NoDepth
            else
              var ask := BestAsk(book.asks);
              if q - ask - FeePerShare(ask, Rate(book)) < params.minEdge then reason == NoEdge
              else
                && ask != 1.0
                && (reason == NoBudget <==> BudgetFor(q, ask, inputs, params) <= 0.0)
                && (BudgetFor(q, ask, inputs, params) > 0.0 ==>
                      match WalkAnswer(book.asks, BudgetFor(q, ask, inputs, params), Rate(book),
                                       Slipped(ask, params.maxSlippage), book.tickSize)
                      case Refused(error) => reason == BookRefused(error)
                      case Walked(walk) =>
                        reason == if walk.shares <= 0.0 then NoDepth
                                  else if walk.shares < book.minOrderSize
                                          || walk.notional + walk.fee < book.minOrderSize
                                  then BelowMinOrder
                                  else NoEdgeAfterFill)
  {
    hide Limit, WalkAnswer, BudgetFor, Slipped, FeePerShare, Rate, Unpriced, BestAsk, Walk.CostPerShare;
    if book.asks != [] {
      LimitIs(BestAsk(book.asks), params);
      if q - BestAsk(book.asks) - FeePerShare(BestAsk(book.asks), Rate(book)) >= params.minEdge {
        CertainAskHasNoEdge(BestAsk(book.asks), Rate(book), q, params.minEdge);
      }
    }
  }

  lemma CertainAskHasNoEdge(ask: real, rate: real, q: real, edge: real)
    requires q <= 1.0 && edge > 0.0 && q - ask - FeePerShare(ask, rate) >= edge
    ensures ask != 1.0
  {
  }

  // ---------- what a trade is worth ----------

  lemma TradeKeepsEdge(inputs: PolicyInputs, params: Params)
    requires ValidForecastView(inputs.forecast) && ValidParams(params)
    requires forall side | side in inputs.books :: inputs.books[side].side == side
    requires Decide(inputs, params).Trade?
    ensures var d := Decide(inputs, params);
            && inputs.forecast.bands.Some? && JudgedAt(inputs.forecast.bands.value, params.probability, d.side, d.q)
            && d.walk.shares > 0.0 && KeepsEdge(d.walk, d.q, params.minEdge)
  {
    DecideIsBestSide(inputs, params);
    DecideSound(inputs, params);
    assert inputs.forecast.bands.Some?;
    hide Decide, TrySide, Unpriced, StaleAge, Gate, GoodBook, PrefixOfBook, WithinCaps, Greedy, WalkOf, KeepsEdge,
         ValidParams, JudgedAt, Rate, Limit, SortByPrice, BestAsk, Walk.CostPerShare;
    var d := Decide(inputs, params);
    KeepsEdgeIff(d.walk, d.q, params.minEdge);
  }

  /** A BOUNDS TRADE KEEPS ITS EDGE whatever probability of the band is right: each share costs, fees included, at
      least the minimum edge less than its chance of paying. */
  lemma BoundsTradeKeepsEdge(inputs: PolicyInputs, params: Params, p: real)
    requires ValidForecastView(inputs.forecast) && ValidParams(params) && params.probability == Bounds
    requires forall side | side in inputs.books :: inputs.books[side].side == side
    requires Decide(inputs, params).Trade?
    requires inputs.forecast.bands.Some? && inputs.forecast.bands.value.low <= p <= inputs.forecast.bands.value.high
    ensures var d := Decide(inputs, params);
            KeepsEdge(d.walk, if d.side == YES then p else 1.0 - p, params.minEdge)
  {
    TradeKeepsEdge(inputs, params);
    hide Decide, KeepsEdge, ValidParams;
    var d, b := Decide(inputs, params), inputs.forecast.bands.value;
    EdgeAtLeast(d.walk, d.q, if d.side == YES then p else 1.0 - p, params.minEdge);
  }

  /** A MID TRADE keeps it against the middle of the band. */
  lemma MidTradeKeepsEdge(inputs: PolicyInputs, params: Params)
    requires ValidForecastView(inputs.forecast) && ValidParams(params) && params.probability == Mid
    requires forall side | side in inputs.books :: inputs.books[side].side == side
    requires Decide(inputs, params).Trade?
    ensures var d, b := Decide(inputs, params), inputs.forecast.bands.value;
            KeepsEdge(d.walk, if d.side == YES then b.mid else 1.0 - b.mid, params.minEdge)
  {
    hide *;
    TradeKeepsEdge(inputs, params);
    JudgedAtMid(inputs.forecast.bands.value, Decide(inputs, params).side, Decide(inputs, params).q);
  }

  lemma JudgedAtMid(b: Bands, side: Side, q: real)
    requires JudgedAt(b, Mid, side, q)
    ensures q == if side == YES then b.mid else 1.0 - b.mid
  {
  }

  /** WHICH REFUSAL where neither side trades: the gate's, or the first side's that is not the lack of an edge,
      YES before NO. */
  lemma DecideReason(inputs: PolicyInputs, params: Params, yes: Decision, no: Decision)
    requires ValidForecastView(inputs.forecast) && ValidParams(params) && Decide(inputs, params).Refuse?
    requires Gate(inputs, params) == None ==>
               forall side, q | JudgedAt(inputs.forecast.bands.value, params.probability, side, q) && q <= 1.0 ::
                 (if side == YES then yes else no) == TrySide(inputs.books[side], q, inputs, params)
    ensures var reason := Decide(inputs, params).reason;
            if Gate(inputs, params).Some? then Gate(inputs, params) == Some(reason)
            else
              && yes.Refuse? && no.Refuse?
              && reason == if yes.reason == NoEdge then no.reason else yes.reason
  {
    if Gate(inputs, params) == None {
      GateOpenIff(inputs, params);
      assert inputs.forecast.bands.Some?;
      hide TrySide, Gate, StaleAge, Unpriced, Tradable;
      var b := inputs.forecast.bands.value;
      forall side
        ensures SideProbability(b, params.probability, side) <= 1.0
        ensures JudgedAt(b, params.probability, side, SideProbability(b, params.probability, side))
      {
        SideProbabilityBound(b, params.probability, side);
        JudgedAtIff(b, params.probability, side, SideProbability(b, params.probability, side));
      }
    }
  }

  // ---------- what a decided ticket is worth ----------

  /** A probability the policy's source stands for: any of the band under bounds, its middle under mid. */
  predicate StandsFor(b: Bands, source: ProbabilitySource, p: real) {
    match source
    case Bounds => b.low <= p <= b.high
    case Mid => p == b.mid
  }

  lemma DecidedTrades(t: Tables, portfolio: PortfolioId, f: nat, now: int)
    returns (params: Params, inputs: PolicyInputs)
    requires Decided(t, portfolio, f, now).Ok? && Decided(t, portfolio, f, now).value.1.TradedAs?
    ensures portfolio in t.portfolios && PolicyOf(t, t.portfolios[portfolio].policy) == Ok(params)
    ensures f < |t.forecasts| && LoadInputs(t, portfolio, f, now) == Ok(inputs)
    ensures var d := Decide(inputs, params);
            && d.Trade? && TicketOpened(t, DraftOf(t, portfolio, f, d), now).Ok?
            && TicketOpened(t, DraftOf(t, portfolio, f, d), now).value == Decided(t, portfolio, f, now).value.0
            && Decided(t, portfolio, f, now).value.1 == TradedAs(|t.tickets|)
  {
    hide TicketOpened, Decide, RefusalRecorded;
    params := PolicyOf(t, t.portfolios[portfolio].policy).value;
    inputs := LoadInputs(t, portfolio, f, now).value;
  }

  lemma TradeTotalsUp(d: Decision, book: SideBook, inputs: PolicyInputs, params: Params)
    requires d.Trade? && SoundTrade(d, book, inputs, params)
    ensures d.walk.shares == SumOf(d.walk.fills, FillShares()) && d.walk.notional == SumOf(d.walk.fills, FillNotional())
  {
    hide Greedy, PrefixOfBook, GoodBook, WithinCaps, StaleAge, SortByPrice, BestAsk;
  }

  /** THE TICKET OF A DECISION costs, fees included, at least the policy's minimum edge less a share than the chance of
      its side, whatever probability the policy's source stands for: all of the forecast's band under bounds. */
  lemma TicketKeepsEdge(t: Tables, portfolio: PortfolioId, f: nat, now: int, p: real)
    returns (params: Params, walk: Walk)
    requires Decided(t, portfolio, f, now).Ok? && Decided(t, portfolio, f, now).value.1.TradedAs?
    requires f < |t.forecasts| && t.forecasts[f].body.bands.Some?
    requires portfolio in t.portfolios && PolicyOf(t, t.portfolios[portfolio].policy).Ok?
             && StandsFor(t.forecasts[f].body.bands.value,
                          PolicyOf(t, t.portfolios[portfolio].policy).value.probability, p)
    ensures PolicyOf(t, t.portfolios[portfolio].policy) == Ok(params)
    ensures var after := Decided(t, portfolio, f, now).value.0;
            && |after.tickets| == |t.tickets| + 1
            && (var b := after.tickets[|t.tickets|].body;
                && b.forecast == f && walk.shares == b.shares > 0.0 && walk.notional + walk.fee == b.cost
                && KeepsEdge(walk, if b.side == YES then p else 1.0 - p, params.minEdge))
  {
    hide *;
    var policy, inputs := DecidedTrades(t, portfolio, f, now);
    params := policy;
    BooksKnowTheirSide(t, portfolio, f, now);
    var d := Decide(inputs, params);
    walk := d.walk;
    PolicyIsValid(t, t.portfolios[portfolio].policy);
    TradeKeepsEdge(inputs, params);
    DecideSound(inputs, params);
    TradeTotalsUp(d, inputs.books[d.side], inputs, params);
    OpeningWrites(t, DraftOf(t, portfolio, f, d), now);
    DraftSays(t, portfolio, f, d);
    StandsForSide(inputs.forecast.bands.value, params.probability, p, d.side, d.q);
    EdgeAtLeast(walk, d.q, if d.side == YES then p else 1.0 - p, params.minEdge);
  }

  lemma PolicyIsValid(t: Tables, digest: Digest)
    requires PolicyOf(t, digest).Ok?
    ensures ValidParams(PolicyOf(t, digest).value)
  {
  }

  lemma BooksKnowTheirSide(t: Tables, portfolio: PortfolioId, f: nat, now: int)
    requires LoadInputs(t, portfolio, f, now).Ok?
    ensures var inputs := LoadInputs(t, portfolio, f, now).value;
            && f < |t.forecasts| && inputs.forecast.bands == t.forecasts[f].body.bands
            && ValidForecastView(inputs.forecast)
            && forall side | side in inputs.books :: inputs.books[side].side == side
  {
    DecisionReads(t, portfolio, f, now);
  }

  lemma DraftSays(t: Tables, portfolio: PortfolioId, f: nat, d: Decision)
    requires d.Trade? && portfolio in t.portfolios && f < |t.forecasts|
    ensures var draft := DraftOf(t, portfolio, f, d);
            draft.forecast == f && draft.side == d.side && draft.fills == d.walk.fills && draft.fee == d.walk.fee
  {
  }

  lemma StandsForSide(b: Bands, source: ProbabilitySource, p: real, side: Side, q: real)
    requires StandsFor(b, source, p) && JudgedAt(b, source, side, q)
    ensures q <= if side == YES then p else 1.0 - p
  {
  }
}
