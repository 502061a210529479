/** The greedy walk is the best possible purchase: no other allocation of share quanta within the
    recorded depth, the limit price and the budget buys more shares, and none buys as many for less
    (src/predict_agent/fills.py:78-110). The proof is a price argument: at the level where the walk
    stops, every quantum moved elsewhere costs at least as much as it saves. */
module Optimality {
  import opened Reals
  import opened Sums
  import opened Fills

  /** Whole quanta a level offers under the limit price. */
  function Depth(level: AskLevel, limit: real): int {
    if level.price <= limit then Quanta(level.size) else 0
  }

  function Total(alloc: seq<int>): int {
    if alloc == [] then 0 else alloc[0] + Total(alloc[1..])
  }

  function AllocCost(levels: seq<AskLevel>, alloc: seq<int>, rate: real): real
    requires |alloc| == |levels|
  {
    if levels == [] then 0.0
    else QuantaCost(alloc[0], levels[0].price, rate) + AllocCost(levels[1..], alloc[1..], rate)
  }

  ghost predicate Within(levels: seq<AskLevel>, alloc: seq<int>, limit: real) {
    && |alloc| == |levels|
    && forall i | 0 <= i < |alloc| :: 0 <= alloc[i] <= Depth(levels[i], limit)
  }

  ghost predicate Feasible(levels: seq<AskLevel>, alloc: seq<int>, budget: real, rate: real, limit: real) {
    Within(levels, alloc, limit) && AllocCost(levels, alloc, rate) <= budget
  }

  /** No feasible allocation beats the walk, in shares or in cost for the same shares. */
  ghost predicate Optimal(levels: seq<AskLevel>, budget: real, rate: real, limit: real)
    requires GoodBook(levels) && GoodRate(rate)
  {
    var walk := WalkOf(Greedy(levels, budget, rate, limit), rate);
    forall alloc | Feasible(levels, alloc, budget, rate, limit) ::
      && Total(alloc) as real / 100.0 <= walk.shares
      && (Total(alloc) as real / 100.0 == walk.shares ==> walk.Cost() <= AllocCost(levels, alloc, rate))
  }

  /** A level under the limit price too small for one quantum stands before one that is not. */
  ghost predicate DustHides(levels: seq<AskLevel>, limit: real) {
    exists i, j :: 0 <= i < j < |levels| && levels[i].price <= limit && Depth(levels[i], limit) == 0
                   && Depth(levels[j], limit) > 0
  }

  function Zeros(n: nat): (r: seq<int>)
    ensures |r| == n && forall i | 0 <= i < n :: r[i] == 0
  {
    seq(n, _ => 0)
  }

  lemma {:induction false} ZerosCost(levels: seq<AskLevel>, rate: real)
    ensures Total(Zeros(|levels|)) == 0
    ensures AllocCost(levels, Zeros(|levels|), rate) == 0.0
  {
    if levels != [] {
      assert Zeros(|levels|)[1..] == Zeros(|levels[1..]|);
      ZerosCost(levels[1..], rate);
    }
  }

  /** The walk as an allocation: the quanta it takes from every level, zero once it has stopped. */
  function Takes(levels: seq<AskLevel>, remaining: real, rate: real, limit: real): (r: seq<int>)
    requires GoodBook(levels) && GoodRate(rate)
    ensures |r| == |levels|
  {
    if levels == [] then []
    else
      var fill := NextFill(levels[0], remaining, rate);
      if levels[0].price > limit || fill.shares <= 0.0 then Zeros(|levels|)
      else [TakeQuanta(levels[0], remaining, rate)] +
           Takes(levels[1..], remaining - Charge(fill, rate), rate, limit)
  }

  lemma AllocCostCons(level: AskLevel, rest: seq<AskLevel>, take: int, takes: seq<int>, rate: real)
    requires |rest| == |takes|
    ensures AllocCost([level] + rest, [take] + takes, rate) ==
            QuantaCost(take, level.price, rate) + AllocCost(rest, takes, rate)
    ensures Total([take] + takes) == take + Total(takes)
  {
  }

  lemma {:induction false} TakesAreFills(levels: seq<AskLevel>, remaining: real, rate: real, limit: real)
    requires GoodBook(levels) && GoodRate(rate)
    ensures var fills := Greedy(levels, remaining, rate, limit);
            var takes := Takes(levels, remaining, rate, limit);
            && Total(takes) as real / 100.0 == SumOf(fills, FillShares())
            && AllocCost(levels, takes, rate) == SumOf(fills, FillNotional()) + SumOf(fills, FillFee(rate))
  {
    if levels != [] {
      var fill := NextFill(levels[0], remaining, rate);
      if levels[0].price > limit || fill.shares <= 0.0 {
        ZerosCost(levels, rate);
      } else {
        var left := remaining - Charge(fill, rate);
        TakesAreFills(levels[1..], left, rate, limit);
        TakesCons(levels, remaining, rate, limit);
        FillsCons(fill, Greedy(levels[1..], left, rate, limit), rate);
      }
    }
  }

  lemma FillsCons(fill: Fill, fills: seq<Fill>, rate: real)
    ensures SumOf([fill] + fills, FillShares()) == fill.shares + SumOf(fills, FillShares())
    ensures SumOf([fill] + fills, FillNotional()) + SumOf([fill] + fills, FillFee(rate)) ==
            Charge(fill, rate) + SumOf(fills, FillNotional()) + SumOf(fills, FillFee(rate))
  {
    assert ([fill] + fills)[1..] == fills;
  }

  /** The cost of the walk's allocation, one level unfolded. */
  lemma TakesCons(levels: seq<AskLevel>, remaining: real, rate: real, limit: real)
    requires GoodBook(levels) && GoodRate(rate) && levels != []
    requires levels[0].price <= limit && NextFill(levels[0], remaining, rate).shares > 0.0
    ensures var fill := NextFill(levels[0], remaining, rate);
            var rest := Takes(levels[1..], remaining - Charge(fill, rate), rate, limit);
            && Takes(levels, remaining, rate, limit) == [TakeQuanta(levels[0], remaining, rate)] + rest
            && AllocCost(levels, Takes(levels, remaining, rate, limit), rate) ==
               Charge(fill, rate) + AllocCost(levels[1..], rest, rate)
  {
    ChargeOfTake(levels[0], remaining, rate);
    assert levels == [levels[0]] + levels[1..];
  }

  lemma NothingTaken(levels: seq<AskLevel>, remaining: real, rate: real, limit: real)
    requires GoodBook(levels) && GoodRate(rate)
    requires Greedy(levels, remaining, rate, limit) == []
    ensures Takes(levels, remaining, rate, limit) == Zeros(|levels|)
  {
  }

  lemma ShortTakeStops(levels: seq<AskLevel>, remaining: real, rate: real, limit: real)
    requires GoodBook(levels) && GoodRate(rate) && levels != [] && levels[0].price <= limit && remaining >= 0.0
    requires Greedy(levels[1..], remaining - Charge(NextFill(levels[0], remaining, rate), rate), rate, limit) == []
    ensures var takes := Takes(levels, remaining, rate, limit);
            && (forall i | 0 < i < |takes| :: takes[i] == 0)
            && AllocCost(levels, takes, rate) == Charge(NextFill(levels[0], remaining, rate), rate)
  {
    var fill := NextFill(levels[0], remaining, rate);
    TakeBounds(levels[0], remaining, rate);
    if fill.shares > 0.0 {
      TakesCons(levels, remaining, rate, limit);
      NothingTaken(levels[1..], remaining - Charge(fill, rate), rate, limit);
      ZerosCost(levels[1..], rate);
    } else {
      ZerosCost(levels, rate);
      ChargeOfTake(levels[0], remaining, rate);
    }
  }

  /** Where the walk stops at level `stop`: everything cheaper is bought out, nothing dearer is
      touched, and the money left is below one quantum of that level. */
  ghost predicate StopsAt(levels: seq<AskLevel>, takes: seq<int>, left: real, rate: real, limit: real, stop: nat) {
    && |takes| == |levels| && stop <= |levels|
    && (forall i | 0 <= i < stop :: takes[i] == Depth(levels[i], limit))
    && (forall i | stop < i < |levels| :: takes[i] == 0)
    && (stop < |levels| ==> left < UnitCost(levels[stop].price, rate) / 100.0)
  }

  lemma {:induction false} WalkStops(levels: seq<AskLevel>, remaining: real, rate: real, limit: real)
    returns (stop: nat)
    requires GoodBook(levels) && GoodRate(rate) && Sorted(levels) && remaining >= 0.0
    requires !DustHides(levels, limit)
    ensures var takes := Takes(levels, remaining, rate, limit);
            StopsAt(levels, takes, remaining - AllocCost(levels, takes, rate), rate, limit, stop)
  {
    if levels == [] {
      return 0;
    }
    var fill := NextFill(levels[0], remaining, rate);
    if levels[0].price > limit || Depth(levels[0], limit) == 0 {
      StopsOutOfReach(levels, remaining, rate, limit);
      stop := |levels|;
    } else if fill.shares < RoundShares(levels[0].size) {
      ShortTakeEnds(levels, remaining, rate, limit);
      ShortTakeStops(levels, remaining, rate, limit);
      stop := 0;
    } else {
      FillCovered(levels[0], remaining, rate);
      DustHidesLater(levels, limit);
      var s := WalkStops(levels[1..], remaining - Charge(fill, rate), rate, limit);
      StopsLater(levels, remaining, rate, limit, s);
      stop := s + 1;
    }
  }

  lemma DustHidesLater(levels: seq<AskLevel>, limit: real)
    requires levels != []
    ensures DustHides(levels[1..], limit) ==> DustHides(levels, limit)
  {
    if DustHides(levels[1..], limit) {
      var i, j :| 0 <= i < j < |levels[1..]| && levels[1..][i].price <= limit
                  && Depth(levels[1..][i], limit) == 0 && Depth(levels[1..][j], limit) > 0;
      assert levels[i + 1].price <= limit && Depth(levels[i + 1], limit) == 0 && Depth(levels[j + 1], limit) > 0;
    }
  }

  /** Out of reach, or dust with nothing but dust behind it: there is nothing left to buy. */
  lemma StopsOutOfReach(levels: seq<AskLevel>, remaining: real, rate: real, limit: real)
    requires GoodBook(levels) && GoodRate(rate) && Sorted(levels) && remaining >= 0.0 && levels != []
    requires !DustHides(levels, limit) && (levels[0].price > limit || Depth(levels[0], limit) == 0)
    ensures Takes(levels, remaining, rate, limit) == Zeros(|levels|)
    ensures forall i | 0 <= i < |levels| :: Depth(levels[i], limit) == 0
  {
    TakeBounds(levels[0], remaining, rate);
    forall i | 0 <= i < |levels|
      ensures Depth(levels[i], limit) == 0
    {
      assert levels[i] in levels;
      assert levels[0].price <= limit && i > 0 ==> Depth(levels[0], limit) == 0;
    }
  }

  lemma StopsLater(levels: seq<AskLevel>, remaining: real, rate: real, limit: real, s: nat)
    requires GoodBook(levels) && GoodRate(rate) && levels != []
    requires levels[0].price <= limit
    requires NextFill(levels[0], remaining, rate).shares == RoundShares(levels[0].size) > 0.0
    requires var left := remaining - Charge(NextFill(levels[0], remaining, rate), rate);
             var rest := Takes(levels[1..], left, rate, limit);
             StopsAt(levels[1..], rest, left - AllocCost(levels[1..], rest, rate), rate, limit, s)
    ensures var takes := Takes(levels, remaining, rate, limit);
            StopsAt(levels, takes, remaining - AllocCost(levels, takes, rate), rate, limit, s + 1)
  {
    TakesCons(levels, remaining, rate, limit);
    var rest := Takes(levels[1..], remaining - Charge(NextFill(levels[0], remaining, rate), rate), rate, limit);
    var takes := Takes(levels, remaining, rate, limit);
    assert forall i | 1 <= i < |levels| :: levels[i] == levels[1..][i - 1] && takes[i] == rest[i - 1];
  }

  /** A number of quanta, priced at `price` a share. */
  function Priced(quanta: int, price: real): real {
    price * (quanta as real / 100.0)
  }

  lemma PricedAdd(m: int, n: int, price: real)
    ensures Priced(m + n, price) == Priced(m, price) + Priced(n, price)
  {
    Distribute(price, m as real / 100.0, n as real / 100.0);
  }

  /** Every quantum `a` holds beyond `g` costs at least `price`, every quantum it lacks saves at
      most `price`. */
  lemma {:induction false} Exchange(levels: seq<AskLevel>, a: seq<int>, g: seq<int>, price: real, rate: real)
    requires |a| == |g| == |levels|
    requires forall i | 0 <= i < |a| :: a[i] > g[i] ==> price <= UnitCost(levels[i].price, rate)
    requires forall i | 0 <= i < |a| :: a[i] < g[i] ==> UnitCost(levels[i].price, rate) <= price
    ensures Priced(Total(a) - Total(g), price) <= AllocCost(levels, a, rate) - AllocCost(levels, g, rate)
  {
    hide UnitCost, QuantaCost, Priced;
    if levels == [] {
      NothingPriced(price);
    } else {
      Exchange(levels[1..], a[1..], g[1..], price, rate);
      ExchangeOne(a[0], g[0], levels[0].price, rate, price);
      PricedAdd(a[0] - g[0], Total(a[1..]) - Total(g[1..]), price);
    }
  }

  lemma NothingPriced(price: real)
    ensures Priced(0, price) == 0.0
  {
  }

  lemma ExchangeOne(a: int, g: int, at: real, rate: real, price: real)
    requires a > g ==> price <= UnitCost(at, rate)
    requires a < g ==> UnitCost(at, rate) <= price
    ensures Priced(a - g, price) <= QuantaCost(a, at, rate) - QuantaCost(g, at, rate)
  {
    hide UnitCost;
    var unit, more := UnitCost(at, rate), (a - g) as real / 100.0;
    assert QuantaCost(a, at, rate) - QuantaCost(g, at, rate) == more * unit;
    if a > g {
      MulMono(price, unit, more);
    } else if a < g {
      MulMono(unit, price, -more);
      assert -more * unit == -(more * unit) && -more * price == -(more * price);
    }
  }

  lemma {:induction false} TotalBound(a: seq<int>, g: seq<int>)
    requires |a| == |g| && forall i | 0 <= i < |a| :: a[i] <= g[i]
    ensures Total(a) <= Total(g)
    ensures Total(a) == Total(g) ==> a == g
  {
    if a != [] {
      TotalBound(a[1..], g[1..]);
      if Total(a) == Total(g) {
        assert a == [a[0]] + a[1..] && g == [g[0]] + g[1..];
      }
    }
  }

  lemma NoQuantumSaved(price: real, more: int, gap: real)
    requires price > 0.0 && Priced(more, price) <= gap < price / 100.0
    ensures more <= 0
    ensures more == 0 ==> 0.0 <= gap
  {
    MulMono(0.01, (if more >= 1 then more else 1) as real / 100.0, price);
  }

  /** The price argument, at an abstract price. */
  lemma OptimalAtPrice(levels: seq<AskLevel>, alloc: seq<int>, takes: seq<int>, budget: real, price: real, rate: real)
    requires |alloc| == |takes| == |levels| && price > 0.0
    requires AllocCost(levels, alloc, rate) <= budget < AllocCost(levels, takes, rate) + price / 100.0
    requires forall i | 0 <= i < |alloc| :: alloc[i] > takes[i] ==> price <= UnitCost(levels[i].price, rate)
    requires forall i | 0 <= i < |alloc| :: alloc[i] < takes[i] ==> UnitCost(levels[i].price, rate) <= price
    ensures Total(alloc) <= Total(takes)
    ensures Total(alloc) == Total(takes) ==> AllocCost(levels, takes, rate) <= AllocCost(levels, alloc, rate)
  {
    hide UnitCost, AllocCost, Total, Priced;
    Exchange(levels, alloc, takes, price, rate);
    NoQuantumSaved(price, Total(alloc) - Total(takes), AllocCost(levels, alloc, rate) - AllocCost(levels, takes, rate));
  }

  lemma OptimalAgainst(levels: seq<AskLevel>, alloc: seq<int>, budget: real, rate: real, limit: real)
    requires GoodBook(levels) && GoodRate(rate) && Sorted(levels) && budget >= 0.0
    requires !DustHides(levels, limit) && Feasible(levels, alloc, budget, rate, limit)
    ensures var takes := Takes(levels, budget, rate, limit);
            && Total(alloc) <= Total(takes)
            && (Total(alloc) == Total(takes) ==> AllocCost(levels, takes, rate) <= AllocCost(levels, alloc, rate))
  {
    var takes := Takes(levels, budget, rate, limit);
    var stop := WalkStops(levels, budget, rate, limit);
    if stop == |levels| {
      TotalBound(alloc, takes);
    } else {
      assert levels[stop] in levels;
      UnitCostBounds(levels[stop].price, rate);
      forall i | 0 <= i < |levels|
        ensures i < stop ==> UnitCost(levels[i].price, rate) <= UnitCost(levels[stop].price, rate)
        ensures i > stop ==> UnitCost(levels[stop].price, rate) <= UnitCost(levels[i].price, rate)
      {
        UnitCostOrder(levels, i, stop, rate);
      }
      OptimalAtPrice(levels, alloc, takes, budget, UnitCost(levels[stop].price, rate), rate);
    }
  }

  lemma UnitCostOrder(levels: seq<AskLevel>, i: nat, j: nat, rate: real)
    requires GoodBook(levels) && GoodRate(rate) && Sorted(levels) && i < |levels| && j < |levels|
    ensures i <= j ==> UnitCost(levels[i].price, rate) <= UnitCost(levels[j].price, rate)
    ensures j <= i ==> UnitCost(levels[j].price, rate) <= UnitCost(levels[i].price, rate)
  {
    assert levels[i] in levels && levels[j] in levels;
    if levels[i].price < levels[j].price {
      UnitCostIncreasing(levels[i].price, levels[j].price, rate);
    } else if levels[j].price < levels[i].price {
      UnitCostIncreasing(levels[j].price, levels[i].price, rate);
    }
  }

  function Depths(levels: seq<AskLevel>, limit: real): (r: seq<int>)
    ensures |r| == |levels| && forall i | 0 <= i < |r| :: r[i] == Depth(levels[i], limit)
  {
    seq(|levels|, i requires 0 <= i < |levels| => Depth(levels[i], limit))
  }

  lemma {:induction false} DustStopsWalk(levels: seq<AskLevel>, remaining: real, rate: real, limit: real, i: nat)
    requires GoodBook(levels) && GoodRate(rate) && remaining >= 0.0
    requires i < |levels| && levels[i].price <= limit && Depth(levels[i], limit) == 0
    ensures Within(levels, Takes(levels, remaining, rate, limit), limit)
    ensures forall k | i <= k < |levels| :: Takes(levels, remaining, rate, limit)[k] == 0
  {
    forall k | 0 <= k < |levels|
      ensures Depth(levels[k], limit) >= 0
    {
      assert levels[k] in levels;
    }
    assert levels[0] in levels;
    TakeBounds(levels[0], remaining, rate);
    var fill := NextFill(levels[0], remaining, rate);
    if levels[0].price <= limit && fill.shares > 0.0 {
      FillCovered(levels[0], remaining, rate);
      DustStopsWalk(levels[1..], remaining - Charge(fill, rate), rate, limit, i - 1);
    }
  }

  lemma SortedWalkOptimalIff(levels: seq<AskLevel>, rate: real, limit: real)
    requires GoodBook(levels) && GoodRate(rate) && Sorted(levels)
    ensures (forall budget | budget >= 0.0 :: Optimal(levels, budget, rate, limit)) <==> !DustHides(levels, limit)
  {
    if DustHides(levels, limit) {
      var i, j :| 0 <= i < j < |levels| && levels[i].price <= limit && Depth(levels[i], limit) == 0
                  && Depth(levels[j], limit) > 0;
      var all := Depths(levels, limit);
      var cost := AllocCost(levels, all, rate);
      var budget := if cost < 0.0 then 0.0 else cost;
      DustStopsWalk(levels, budget, rate, limit, i);
      TakesAreFills(levels, budget, rate, limit);
      TotalBound(Takes(levels, budget, rate, limit), all);
      assert all[j] > 0;
      assert Feasible(levels, all, budget, rate, limit);
      assert !Optimal(levels, budget, rate, limit);
    } else {
      forall budget | budget >= 0.0
        ensures Optimal(levels, budget, rate, limit)
      {
        TakesAreFills(levels, budget, rate, limit);
        forall alloc | Feasible(levels, alloc, budget, rate, limit)
          ensures var walk := WalkOf(Greedy(levels, budget, rate, limit), rate);
                  && Total(alloc) as real / 100.0 <= walk.shares
                  && (Total(alloc) as real / 100.0 == walk.shares ==> walk.Cost() <= AllocCost(levels, alloc, rate))
        {
          OptimalAgainst(levels, alloc, budget, rate, limit);
        }
      }
    }
  }

  /** THE WALK OF A BOOK IS OPTIMAL, whatever the budget, exactly when no level under the limit price
      is too small for one share quantum while a dearer one is not. */
  lemma WalkOptimalIff(asks: seq<AskLevel>, rate: real, limit: real)
    requires GoodBook(asks) && GoodRate(rate)
    ensures GoodBook(SortByPrice(asks))
    ensures (forall budget | budget >= 0.0 :: Optimal(SortByPrice(asks), budget, rate, limit))
            <==> !DustHides(SortByPrice(asks), limit)
  {
    SortCorrect(asks);
    SortedWalkOptimalIff(SortByPrice(asks), rate, limit);
  }

  /** With every recorded size at least one quantum the walk is optimal for every budget. */
  lemma WalkOptimalWithoutDust(asks: seq<AskLevel>, budget: real, rate: real, limit: real)
    requires GoodBook(asks) && GoodRate(rate) && budget >= 0.0
    requires forall l | l in asks :: l.size >= 0.01
    ensures GoodBook(SortByPrice(asks)) && Optimal(SortByPrice(asks), budget, rate, limit)
  {
    var levels := SortByPrice(asks);
    forall i | 0 <= i < |levels|
      ensures Quanta(levels[i].size) >= 1
    {
      assert levels[i] in asks;
    }
    WalkOptimalIff(asks, rate, limit);
  }

  /** This notional buys that many shares at an average between `best` and `limit`. */
  predicate Averages(best: real, limit: real, shares: real, notional: real) {
    best * shares <= notional <= limit * shares
  }

  lemma AverageStep(best: real, f: Fill, limit: real, tail: real, notional: real, shares: real, total: real)
    requires best <= f.price <= limit && f.shares > 0.0 && Averages(best, limit, tail, notional)
    requires shares == f.shares + tail && total == f.shares * f.price + notional
    ensures Averages(best, limit, shares, total)
  {
    MulMono(best, f.price, f.shares);
    MulMono(f.price, limit, f.shares);
    Distribute(best, f.shares, tail);
    Distribute(limit, f.shares, tail);
  }

  lemma NothingAverages(best: real, limit: real)
    ensures Averages(best, limit, 0.0, 0.0)
  {
  }

  /** The average price of a walk that bought anything lies between the best ask and the limit. */
  lemma {:induction false} AveragePriceBetween(fills: seq<Fill>, best: real, limit: real)
    requires forall f | f in fills :: best <= f.price <= limit && f.shares > 0.0
    ensures Averages(best, limit, SumOf(fills, FillShares()), SumOf(fills, FillNotional()))
    ensures fills != [] ==> SumOf(fills, FillShares()) > 0.0
  {
    hide Averages;
    if fills == [] {
      NothingAverages(best, limit);
    } else {
      AveragePriceBetween(fills[1..], best, limit);
      AverageStep(best, fills[0], limit, SumOf(fills[1..], FillShares()), SumOf(fills[1..], FillNotional()),
                  SumOf(fills, FillShares()), SumOf(fills, FillNotional()));
    }
  }
}
