/** When a walk's fills pass the auditor's depth check (src/predict_agent/invariants.py:270-292). The
    auditor keys the recorded depth by price and reports a repeated fill price; a recorded book may
    hold the same price twice. */
module RecordedBook {
  import opened Reals
  import opened Sums
  import opened Fills
  import opened Policy
  import opened Optimality
  import opened Invariants

  lemma AverageOfTotals(best: real, limit: real, shares: real, notional: real)
    requires shares > 0.0 && Averages(best, limit, shares, notional)
    ensures best <= notional / shares <= limit
  {
    DivMono(best * shares, notional, shares);
    DivMono(notional, limit * shares, shares);
    assert best * shares / shares == best && limit * shares / shares == limit;
  }

  /** The average price of a walk that bought anything lies between the best ask and the limit. */
  lemma WalkAverage(asks: seq<AskLevel>, budget: real, rate: real, limit: real, tick: real)
    requires asks != [] && WalkAnswer(asks, budget, rate, limit, tick).Walked?
    requires WalkAnswer(asks, budget, rate, limit, tick).walk.fills != []
    ensures var walk := WalkAnswer(asks, budget, rate, limit, tick).walk;
            walk.shares > 0.0 && BestAsk(asks) <= walk.AveragePrice() <= limit
  {
    hide WalkAnswer, Greedy, Averages;
    WalkSound(asks, budget, rate, limit, tick);
    var fills, levels := WalkAnswer(asks, budget, rate, limit, tick).walk.fills, SortByPrice(asks);
    forall f | f in fills
      ensures BestAsk(asks) <= f.price <= limit && f.shares > 0.0
    {
      var i :| 0 <= i < |fills| && fills[i] == f;
      assert levels[i] in levels;
    }
    AveragePriceBetween(fills, BestAsk(asks), limit);
    AverageOfTotals(BestAsk(asks), limit, SumOf(fills, FillShares()), SumOf(fills, FillNotional()));
  }

  predicate DistinctLevels(levels: seq<AskLevel>) {
    forall i, j | 0 <= i < j < |levels| :: levels[i].price != levels[j].price
  }

  lemma DistinctCons(level: AskLevel, rest: seq<AskLevel>)
    ensures DistinctLevels([level] + rest) <==>
            DistinctLevels(rest) && forall x | x in rest :: x.price != level.price
  {
    var all := [level] + rest;
    assert forall i | 0 <= i < |rest| :: rest[i] == all[i + 1];
    if DistinctLevels(all) {
      forall x | x in rest
        ensures x.price != level.price
      {
        var i :| 0 <= i < |rest| && rest[i] == x;
        assert all[0].price != all[i + 1].price;
      }
    }
  }

  lemma {:induction false} InsertDistinct(level: AskLevel, sorted: seq<AskLevel>)
    ensures DistinctLevels(InsertByPrice(level, sorted)) <==>
            DistinctLevels(sorted) && forall x | x in sorted :: x.price != level.price
  {
    if sorted == [] || level.price <= sorted[0].price {
      DistinctCons(level, sorted);
    } else {
      assert sorted == [sorted[0]] + sorted[1..];
      DistinctCons(sorted[0], sorted[1..]);
      InsertDistinct(level, sorted[1..]);
      DistinctCons(sorted[0], InsertByPrice(level, sorted[1..]));
    }
  }

  lemma {:induction false} SortDistinct(asks: seq<AskLevel>)
    ensures DistinctLevels(SortByPrice(asks)) <==> DistinctLevels(asks)
  {
    if asks != [] {
      assert asks == [asks[0]] + asks[1..];
      DistinctCons(asks[0], asks[1..]);
      SortDistinct(asks[1..]);
      InsertDistinct(asks[0], SortByPrice(asks[1..]));
    }
  }

  lemma {:induction false} DepthRecorded(asks: seq<AskLevel>, level: AskLevel)
    requires DistinctLevels(asks) && level in asks
    ensures level.price in DepthAt(asks) && DepthAt(asks)[level.price] == level.size
  {
    var init, last := asks[..|asks| - 1], asks[|asks| - 1];
    assert asks == init + [last];
    if level != last {
      assert level in init;
      DepthRecorded(init, level);
      var i :| 0 <= i < |init| && init[i] == level;
      assert asks[i].price != last.price;
    }
  }

  /** Fills that are a prefix of the sorted book come from the recorded book, if its prices differ. */
  lemma PrefixIsRecorded(fills: seq<Fill>, asks: seq<AskLevel>, limit: real)
    requires DistinctLevels(asks) && fills != [] && PrefixOfBook(fills, SortByPrice(asks), limit)
    ensures WithinRecordedBook(fills, asks)
  {
    var levels := SortByPrice(asks);
    SortDistinct(asks);
    forall f | f in fills
      ensures f.price in DepthAt(asks) && 0.0 < f.shares <= DepthAt(asks)[f.price]
    {
      var i :| 0 <= i < |fills| && fills[i] == f;
      assert levels[i] in levels;
      DepthRecorded(asks, levels[i]);
    }
  }

  /** Whatever is spent at whatever limit, the fills of this book's walk pass the depth check. */
  ghost predicate AlwaysRecorded(asks: seq<AskLevel>, rate: real)
    requires GoodBook(asks) && GoodBook(SortByPrice(asks)) && GoodRate(rate)
  {
    forall budget, limit | budget >= 0.0 && Greedy(SortByPrice(asks), budget, rate, limit) != [] ::
      WithinRecordedBook(Greedy(SortByPrice(asks), budget, rate, limit), asks)
  }

  lemma NotShort(take: int, depth: int, price: real, rate: real, remaining: real)
    requires UnitCost(price, rate) > 0.0 && take <= depth && QuantaCost(depth, price, rate) <= remaining
    requires take < depth ==> remaining < QuantaCost(take + 1, price, rate)
    ensures take == depth
  {
    hide UnitCost;
    MulMono((if take < depth then take + 1 else depth) as real / 100.0, depth as real / 100.0, UnitCost(price, rate));
  }

  lemma TakesWholeLevel(level: AskLevel, remaining: real, rate: real)
    requires GoodLevel(level) && GoodRate(rate) && remaining >= 0.0
    requires QuantaCost(Quanta(level.size), level.price, rate) <= remaining
    ensures NextFill(level, remaining, rate).shares == RoundShares(level.size)
    ensures Charge(NextFill(level, remaining, rate), rate) ==
            QuantaCost(Quanta(level.size), level.price, rate)
  {
    TakeBounds(level, remaining, rate);
    UnitCostBounds(level.price, rate);
    NotShort(TakeQuanta(level, remaining, rate), Quanta(level.size), level.price, rate, remaining);
    ChargeOfTake(level, remaining, rate);
  }

  lemma {:induction false} DepthsCostNonNegative(levels: seq<AskLevel>, rate: real)
    requires GoodBook(levels) && GoodRate(rate)
    ensures AllocCost(levels, Depths(levels, 1.0), rate) >= 0.0
  {
    if levels != [] {
      assert levels[0] in levels;
      DepthsCons(levels, rate);
      BuyOutSign(levels[0], rate);
      DepthsCostNonNegative(levels[1..], rate);
    }
  }

  lemma BuyOutSign(level: AskLevel, rate: real)
    requires GoodLevel(level) && GoodRate(rate)
    ensures QuantaCost(Quanta(level.size), level.price, rate) >= 0.0
  {
    UnitCostBounds(level.price, rate);
    MulSign(Quanta(level.size) as real / 100.0, UnitCost(level.price, rate));
  }

  lemma SplitCost(levels: seq<AskLevel>, alloc: seq<int>, take: int, takes: seq<int>, rate: real)
    requires levels != [] && |takes| == |levels| - 1
    requires levels == [levels[0]] + levels[1..] && alloc == [take] + takes
    ensures AllocCost(levels, alloc, rate) ==
            QuantaCost(take, levels[0].price, rate) + AllocCost(levels[1..], takes, rate)
  {
    AllocCostCons(levels[0], levels[1..], take, takes, rate);
  }

  lemma DepthsCons(levels: seq<AskLevel>, rate: real)
    requires GoodBook(levels) && GoodRate(rate) && levels != []
    ensures AllocCost(levels, Depths(levels, 1.0), rate) ==
            QuantaCost(Quanta(levels[0].size), levels[0].price, rate)
            + AllocCost(levels[1..], Depths(levels[1..], 1.0), rate)
  {
    DepthsSplit(levels);
    SplitCost(levels, Depths(levels, 1.0), Quanta(levels[0].size), Depths(levels[1..], 1.0), rate);
  }

  lemma DepthsSplit(levels: seq<AskLevel>)
    requires GoodBook(levels) && levels != []
    ensures levels == [levels[0]] + levels[1..]
    ensures Depths(levels, 1.0) == [Quanta(levels[0].size)] + Depths(levels[1..], 1.0)
  {
    assert levels[0] in levels;
  }

  /** With money for the whole book, every level of it is bought. */
  lemma {:induction false} BuysTheBook(levels: seq<AskLevel>, remaining: real, rate: real)
    requires GoodBook(levels) && GoodRate(rate) && forall l | l in levels :: l.size >= 0.01
    requires AllocCost(levels, Depths(levels, 1.0), rate) <= remaining
    ensures var fills := Greedy(levels, remaining, rate, 1.0);
            && |fills| == |levels|
            && forall i | 0 <= i < |fills| ::
               fills[i].price == levels[i].price && fills[i].shares == RoundShares(levels[i].size)
  {
    if levels != [] {
      assert levels[0] in levels;
      DepthsCons(levels, rate);
      BuyOutSign(levels[0], rate);
      DepthsCostNonNegative(levels[1..], rate);
      TakesWholeLevel(levels[0], remaining, rate);
      var fill := NextFill(levels[0], remaining, rate);
      BuysTheBook(levels[1..], remaining - Charge(fill, rate), rate);
      var tail := Greedy(levels[1..], remaining - Charge(fill, rate), rate, 1.0);
      assert Greedy(levels, remaining, rate, 1.0) == [fill] + tail;
    }
  }

  /** The levels a walk can reach: those before the first that is smaller than one share quantum. */
  function Reach(levels: seq<AskLevel>): (r: seq<AskLevel>)
    ensures r <= levels
    ensures forall l | l in r :: l.size >= 0.01
  {
    if levels == [] || levels[0].size < 0.01 then [] else [levels[0]] + Reach(levels[1..])
  }

  lemma {:induction false} ReachAll(levels: seq<AskLevel>)
    requires forall l | l in levels :: l.size >= 0.01
    ensures Reach(levels) == levels
  {
    if levels != [] {
      assert levels[0] in levels;
      ReachAll(levels[1..]);
    }
  }

  lemma DustBuysNothing(level: AskLevel, remaining: real, rate: real)
    requires GoodLevel(level) && GoodRate(rate) && level.size < 0.01
    ensures NextFill(level, remaining, rate).shares <= 0.0
  {
    assert Quanta(level.size) == 0;
    UnitCostBounds(level.price, rate);
  }

  /** Nothing beyond its reach matters to a walk. */
  lemma {:induction false} GreedyReaches(levels: seq<AskLevel>, remaining: real, rate: real, limit: real)
    requires GoodBook(levels) && GoodRate(rate)
    ensures GoodBook(Reach(levels))
    ensures Greedy(levels, remaining, rate, limit) == Greedy(Reach(levels), remaining, rate, limit)
  {
    hide NextFill, Charge;
    if levels != [] {
      assert levels[0] in levels;
      if levels[0].size < 0.01 {
        DustBuysNothing(levels[0], remaining, rate);
      } else {
        var left := remaining - Charge(NextFill(levels[0], remaining, rate), rate);
        GreedyReaches(levels[1..], left, rate, limit);
        assert Reach(levels)[1..] == Reach(levels[1..]);
      }
    }
  }

  /** The recorded size at a price is the size of some level at that price. */
  lemma {:induction false} DepthCovers(asks: seq<AskLevel>, level: AskLevel)
    requires level in asks
    ensures level.price in DepthAt(asks)
  {
    var init, last := asks[..|asks| - 1], asks[|asks| - 1];
    assert asks == init + [last];
    if level != last {
      DepthCovers(init, level);
    }
  }

  /** Within reach no price repeats, and the size the auditor keeps at each price covers the level there. */
  predicate ReachRecorded(asks: seq<AskLevel>) {
    var reach := Reach(SortByPrice(asks));
    && DistinctLevels(reach)
    && forall l | l in reach :: l.price in DepthAt(asks) && RoundShares(l.size) <= DepthAt(asks)[l.price]
  }

  lemma ReachSorted(levels: seq<AskLevel>)
    requires Sorted(levels)
    ensures Sorted(Reach(levels))
  {
    var r := Reach(levels);
    assert forall i | 0 <= i < |r| :: r[i] == levels[i];
  }

  lemma RecordedFromReach(asks: seq<AskLevel>, budget: real, rate: real, limit: real)
    requires GoodBook(asks) && GoodBook(SortByPrice(asks)) && GoodRate(rate) && budget >= 0.0 && ReachRecorded(asks)
    requires Greedy(SortByPrice(asks), budget, rate, limit) != []
    ensures WithinRecordedBook(Greedy(SortByPrice(asks), budget, rate, limit), asks)
  {
    var levels := SortByPrice(asks);
    var reach := Reach(levels);
    SortCorrect(asks);
    ReachSorted(levels);
    GreedyReaches(levels, budget, rate, limit);
    GreedyShape(reach, budget, rate, limit);
    hide Greedy;
    var fills := Greedy(levels, budget, rate, limit);
    forall f | f in fills
      ensures f.price in DepthAt(asks) && 0.0 < f.shares <= DepthAt(asks)[f.price]
    {
      var i :| 0 <= i < |fills| && fills[i] == f;
      assert reach[i] in reach;
    }
  }

  lemma RecordedIntoReach(asks: seq<AskLevel>, rate: real)
    requires GoodBook(asks) && GoodBook(SortByPrice(asks)) && GoodRate(rate) && AlwaysRecorded(asks, rate)
    ensures ReachRecorded(asks)
  {
    hide Greedy, AllocCost, DepthAt, Reach, Depths, RoundShares, SortByPrice;
    var levels := SortByPrice(asks);
    var reach := Reach(levels);
    if reach != [] {
      GreedyReaches(levels, 0.0, rate, 1.0);
      var budget := AllocCost(reach, Depths(reach, 1.0), rate);
      GreedyReaches(levels, budget, rate, 1.0);
      DepthsCostNonNegative(reach, rate);
      BuysTheBook(reach, budget, rate);
      var fills := Greedy(levels, budget, rate, 1.0);
      assert WithinRecordedBook(fills, asks);
      forall i, j | 0 <= i < j < |reach|
        ensures reach[i].price != reach[j].price
      {
        assert fills[i].price != fills[j].price;
      }
      forall l | l in reach
        ensures l.price in DepthAt(asks) && RoundShares(l.size) <= DepthAt(asks)[l.price]
      {
        var i :| 0 <= i < |reach| && reach[i] == l;
        assert fills[i] in fills;
      }
    }
  }

  /** THE DEPTH CHECK PASSES for everything the walk can buy from a book exactly when, within its reach, no
      price repeats and the size the auditor keeps at each price covers the level there. */
  lemma AlwaysRecordedIff(asks: seq<AskLevel>, rate: real)
    requires GoodBook(asks) && GoodRate(rate)
    ensures GoodBook(SortByPrice(asks))
    ensures AlwaysRecorded(asks, rate) <==> ReachRecorded(asks)
  {
    hide Greedy, WithinRecordedBook, ReachRecorded;
    if ReachRecorded(asks) {
      forall budget, limit | budget >= 0.0 && Greedy(SortByPrice(asks), budget, rate, limit) != []
        ensures WithinRecordedBook(Greedy(SortByPrice(asks), budget, rate, limit), asks)
      {
        RecordedFromReach(asks, budget, rate, limit);
      }
    }
    if AlwaysRecorded(asks, rate) {
      RecordedIntoReach(asks, rate);
    }
  }

  /** For a book whose every level is at least one quantum the condition is that no price repeats; for any
      book distinct prices suffice. */
  lemma RecordedWithoutDust(asks: seq<AskLevel>)
    requires GoodBook(asks)
    ensures DistinctLevels(asks) ==> ReachRecorded(asks)
    ensures (forall l | l in asks :: l.size >= 0.01) && ReachRecorded(asks) ==> DistinctLevels(asks)
  {
    var levels := SortByPrice(asks);
    SortDistinct(asks);
    if forall l | l in asks :: l.size >= 0.01 {
      ReachAll(levels);
    }
    if DistinctLevels(asks) {
      forall l | l in Reach(levels)
        ensures l.price in DepthAt(asks) && RoundShares(l.size) <= DepthAt(asks)[l.price]
      {
        assert l in levels && l in asks && GoodLevel(l);
        DepthRecorded(asks, l);
      }
    }
  }
}
