/** Paper fills: the greedy, fee-aware walk of a recorded ask book
    (src/predict_agent/fills.py). Prices, sizes and money are exact reals; `RoundShares` is the
    only rounding. */
module Fills {
  import opened Prelude
  import opened Reals
  import opened Sums

  datatype AskLevel = AskLevel(price: real, size: real)
  datatype Fill = Fill(price: real, shares: real)

  datatype Walk = Walk(fills: seq<Fill>, shares: real, notional: real, fee: real) {
    function Cost(): real { notional + fee }

    function CostPerShare(): real
      requires shares != 0.0
    {
      Cost() / shares
    }

    function AveragePrice(): real
      requires shares != 0.0
    {
      notional / shares
    }
  }

  datatype FillError = BadBudget | FeeUnknown | TickMismatch | BadBook
  datatype WalkResult = Walked(walk: Walk) | Refused(error: FillError)

  function FeePerShare(price: real, rate: real): real {
    rate * price * (1.0 - price)
  }

  function LevelFee(shares: real, price: real, rate: real): real {
    shares * FeePerShare(price, rate)
  }

  function UnitCost(price: real, rate: real): real {
    price + FeePerShare(price, rate)
  }

  /** What a number of share quanta cost at one level, fee included. */
  function QuantaCost(quanta: int, price: real, rate: real): real {
    quanta as real / 100.0 * UnitCost(price, rate)
  }

  /** Whole share quanta of 0.01 in a quantity, towards zero. */
  function Quanta(quantity: real): int {
    if quantity < 0.0 then -((-quantity * 100.0).Floor) else (quantity * 100.0).Floor
  }

  function RoundShares(quantity: real): real {
    Quanta(quantity) as real / 100.0
  }

  /** Shares are rounded towards zero to a whole number of hundredths. */
  lemma RoundSharesDown(quantity: real) returns (quanta: int)
    ensures RoundShares(quantity) == quanta as real / 100.0
    ensures RoundShares(-quantity) == -RoundShares(quantity)
    ensures quantity >= 0.0 ==> 0.0 <= RoundShares(quantity) <= quantity < RoundShares(quantity) + 0.01
  {
    quanta := Quanta(quantity);
  }

  function FillShares(): Fill -> real { (f: Fill) => f.shares }
  function FillNotional(): Fill -> real { (f: Fill) => f.shares * f.price }
  function FillFee(rate: real): Fill -> real { (f: Fill) => LevelFee(f.shares, f.price, rate) }

  // ---------- sorted_asks ----------

  predicate OnTick(price: real, tick: real)
    requires tick > 0.0
  {
    (price / tick).Floor as real * tick == price
  }

  predicate GoodLevel(level: AskLevel) {
    0.0 < level.price < 1.0 && level.size > 0.0
  }

  /** The refusal raised by the first level that cannot be used, if any. */
  function FirstBadLevel(asks: seq<AskLevel>, tick: real): (code: Option<FillError>)
    requires tick > 0.0
    ensures code == None <==> forall l | l in asks :: GoodLevel(l) && OnTick(l.price, tick)
  {
    if asks == [] then None
    else if !GoodLevel(asks[0]) then Some(BadBook)
    else if !OnTick(asks[0].price, tick) then Some(TickMismatch)
    else FirstBadLevel(asks[1..], tick)
  }

  /** This many ticks. */
  function Ticks(count: int, tick: real): real { count as real * tick }

  /** A price is on the tick exactly when it is a whole number of ticks. */
  lemma OnTickIff(price: real, tick: real)
    requires tick > 0.0
    ensures OnTick(price, tick) <==> exists k :: price == Ticks(k, tick)
  {
    var n := (price / tick).Floor;
    if k :| price == Ticks(k, tick) {
      DivMul(price, tick);
      SameMultiple(price / tick, k as real, tick);
    }
    if OnTick(price, tick) {
      assert price == Ticks(n, tick);
    }
  }

  lemma SameMultiple(a: real, b: real, c: real)
    requires a * c == b * c && c > 0.0
    ensures a == b
  {
    if a < b {
      MulStrict(a, b, c);
    } else if b < a {
      MulStrict(b, a, c);
    }
  }

  /** Neither a price outside (0, 1) nor an empty level, and on the tick. */
  ghost predicate Usable(level: AskLevel, tick: real) {
    0.0 < level.price < 1.0 && level.size > 0.0 && exists k :: level.price == Ticks(k, tick)
  }

  /** A BOOK IS REFUSED for its first unusable level: as a bad book where its price or size is out of range,
      and otherwise for the tick. */
  lemma {:induction false} FirstBadLevelIs(asks: seq<AskLevel>, tick: real) returns (i: nat)
    requires tick > 0.0
    ensures i <= |asks| && forall j | 0 <= j < i :: Usable(asks[j], tick)
    ensures FirstBadLevel(asks, tick).None? <==> i == |asks|
    ensures i < |asks| ==>
              && !Usable(asks[i], tick)
              && (FirstBadLevel(asks, tick) == Some(BadBook) <==>
                    asks[i].price <= 0.0 || asks[i].price >= 1.0 || asks[i].size <= 0.0)
              && (FirstBadLevel(asks, tick) == Some(BadBook) || FirstBadLevel(asks, tick) == Some(TickMismatch))
  {
    if asks == [] {
      return 0;
    }
    OnTickIff(asks[0].price, tick);
    hide OnTick;
    if FirstBadLevel(asks, tick) == FirstBadLevel(asks[1..], tick) && Usable(asks[0], tick) {
      var rest := FirstBadLevelIs(asks[1..], tick);
      i := rest + 1;
      assert forall j | 1 <= j < i :: asks[j] == asks[1..][j - 1];
    } else {
      i := 0;
    }
  }

  ghost predicate Sorted(levels: seq<AskLevel>) {
    forall i, j | 0 <= i < j < |levels| :: levels[i].price <= levels[j].price
  }

  /** `level` placed before the first level that is not cheaper. */
  function InsertByPrice(level: AskLevel, sorted: seq<AskLevel>): (r: seq<AskLevel>)
    ensures |r| == |sorted| + 1
    ensures forall x :: x in r <==> x == level || x in sorted
  {
    if sorted == [] || level.price <= sorted[0].price then [level] + sorted
    else [sorted[0]] + InsertByPrice(level, sorted[1..])
  }

  /** Best price first; a stable sort, as Python's `sorted` is. */
  function SortByPrice(asks: seq<AskLevel>): (r: seq<AskLevel>)
    ensures |r| == |asks|
    ensures forall x :: x in r <==> x in asks
  {
    if asks == [] then [] else InsertByPrice(asks[0], SortByPrice(asks[1..]))
  }

  lemma SortedCons(level: AskLevel, rest: seq<AskLevel>)
    ensures Sorted([level] + rest) <==> Sorted(rest) && forall x | x in rest :: level.price <= x.price
  {
    var all := [level] + rest;
    assert forall i | 0 <= i < |rest| :: rest[i] == all[i + 1];
    if Sorted(all) {
      forall x | x in rest
        ensures level.price <= x.price
      {
        var i :| 0 <= i < |rest| && rest[i] == x;
        assert all[0].price <= all[i + 1].price;
      }
    }
  }

  lemma {:induction false} InsertSorted(level: AskLevel, sorted: seq<AskLevel>)
    requires Sorted(sorted)
    ensures Sorted(InsertByPrice(level, sorted))
    ensures multiset(InsertByPrice(level, sorted)) == multiset(sorted) + multiset{level}
  {
    hide Sorted;
    if sorted == [] {
      SortedCons(level, []);
    } else {
      assert sorted == [sorted[0]] + sorted[1..];
      SortedCons(sorted[0], sorted[1..]);
      if level.price <= sorted[0].price {
        SortedCons(level, sorted);
      } else {
        InsertSorted(level, sorted[1..]);
        SortedCons(sorted[0], InsertByPrice(level, sorted[1..]));
      }
    }
  }

  /** The walk's order is the book itself, cheapest first: nothing lost, nothing repeated. */
  lemma {:induction false} SortCorrect(asks: seq<AskLevel>)
    ensures Sorted(SortByPrice(asks))
    ensures multiset(SortByPrice(asks)) == multiset(asks)
  {
    if asks != [] {
      SortCorrect(asks[1..]);
      InsertSorted(asks[0], SortByPrice(asks[1..]));
      assert asks == [asks[0]] + asks[1..];
    }
  }

  /** The levels at one price, in order. */
  function AtPrice(levels: seq<AskLevel>, price: real): seq<AskLevel> {
    if levels == [] then []
    else (if levels[0].price == price then [levels[0]] else []) + AtPrice(levels[1..], price)
  }

  lemma AtPriceCons(level: AskLevel, rest: seq<AskLevel>, price: real)
    ensures AtPrice([level] + rest, price) == (if level.price == price then [level] else []) + AtPrice(rest, price)
  {
    assert ([level] + rest)[1..] == rest;
  }

  lemma {:induction false} InsertStable(level: AskLevel, sorted: seq<AskLevel>, price: real)
    ensures AtPrice(InsertByPrice(level, sorted), price) ==
            (if level.price == price then [level] else []) + AtPrice(sorted, price)
  {
    hide AtPrice;
    if sorted == [] || level.price <= sorted[0].price {
      AtPriceCons(level, sorted, price);
    } else {
      InsertStable(level, sorted[1..], price);
      AtPriceCons(sorted[0], InsertByPrice(level, sorted[1..]), price);
      AtPriceCons(sorted[0], sorted[1..], price);
      assert sorted == [sorted[0]] + sorted[1..];
      assert level.price == price ==> sorted[0].price != price;
      hide InsertByPrice;
      var rest := AtPrice(sorted[1..], price);
      if level.price == price {
        assert [] + rest == rest;
      } else {
        assert [] + rest == rest && [] + AtPrice(sorted, price) == AtPrice(sorted, price);
      }
    }
  }

  /** The sort is stable: levels at one price keep the book's order. */
  lemma {:induction false} SortStable(asks: seq<AskLevel>, price: real)
    ensures AtPrice(SortByPrice(asks), price) == AtPrice(asks, price)
  {
    if asks != [] {
      SortStable(asks[1..], price);
      InsertStable(asks[0], SortByPrice(asks[1..]), price);
    }
  }

  // ---------- walk_asks ----------

  predicate GoodRate(rate: real) { 0.0 <= rate < 1.0 }

  predicate GoodBook(levels: seq<AskLevel>) {
    forall l | l in levels :: GoodLevel(l)
  }

  lemma UnitCostBounds(price: real, rate: real)
    requires 0.0 < price < 1.0 && GoodRate(rate)
    ensures FeePerShare(price, rate) >= 0.0
    ensures price <= UnitCost(price, rate) && 0.0 < UnitCost(price, rate)
  {
    MulSign(rate, price);
    MulSign(rate * price, 1.0 - price);
  }

  /** Unit cost is strictly increasing in price: a fee of `r p (1 - p)` with r < 1 never makes a
      dearer level the cheaper one. */
  lemma UnitCostIncreasing(p: real, q: real, rate: real)
    requires 0.0 < p < q < 1.0 && GoodRate(rate)
    ensures UnitCost(p, rate) < UnitCost(q, rate)
  {
    var d := 1.0 - p - q;
    assert 1.0 + rate * d > 0.0 by {
      if d < 0.0 {
        MulMono(rate, 1.0, -d);
        assert rate * -d == -(rate * d);
      } else {
        MulSign(rate, d);
      }
    }
    UnitCostSlope(p, q, rate);
    MulStrict(0.0, 1.0 + rate * d, q - p);
  }

  lemma UnitCostSlope(p: real, q: real, rate: real)
    ensures UnitCost(q, rate) - UnitCost(p, rate) == (1.0 + rate * (1.0 - p - q)) * (q - p)
  {
    assert rate * q * (1.0 - q) == rate * q - rate * q * q;
    assert rate * p * (1.0 - p) == rate * p - rate * p * p;
  }

  /** THE FEE: nothing at the certain prices, the same for a price and its complement, and largest, a quarter of
      the rate, at even odds. */
  lemma FeeShape(price: real, rate: real)
    requires rate >= 0.0
    ensures FeePerShare(0.0, rate) == FeePerShare(1.0, rate) == 0.0
    ensures FeePerShare(price, rate) == FeePerShare(1.0 - price, rate)
    ensures FeePerShare(0.5, rate) == rate / 4.0 && FeePerShare(price, rate) <= rate / 4.0
  {
    var d := price - 0.5;
    assert price * (1.0 - price) == 0.25 - d * d;
    SquareNonNegative(d);
    MulMono(price * (1.0 - price), 0.25, rate);
    assert rate * price * (1.0 - price) == price * (1.0 - price) * rate;
    assert rate * price * (1.0 - price) == rate * (1.0 - price) * price;
  }

  lemma SquareNonNegative(d: real)
    ensures d * d >= 0.0
  {
    if d >= 0.0 {
      MulSign(d, d);
    } else {
      MulSign(-d, -d);
      assert -d * -d == d * d;
    }
  }

  /** What one level takes: its own depth or what the money left affords, in whole quanta. */
  function TakeQuanta(level: AskLevel, remaining: real, rate: real): int
    requires GoodLevel(level) && GoodRate(rate)
  {
    UnitCostBounds(level.price, rate);
    var affordable := Quanta(remaining / UnitCost(level.price, rate));
    if Quanta(level.size) <= affordable then Quanta(level.size) else affordable
  }

  lemma AffordableQuanta(remaining: real, unit: real)
    requires unit > 0.0 && remaining >= 0.0
    ensures var k := Quanta(remaining / unit);
            k >= 0 && k as real / 100.0 * unit <= remaining < (k + 1) as real / 100.0 * unit
  {
    var k := Quanta(remaining / unit);
    DivMono(0.0, remaining, unit);
    Bracket(k as real / 100.0, (k + 1) as real / 100.0, remaining, unit);
  }

  lemma TakeBounds(level: AskLevel, remaining: real, rate: real)
    requires GoodLevel(level) && GoodRate(rate) && remaining >= 0.0
    ensures var take := TakeQuanta(level, remaining, rate);
            && 0 <= take <= Quanta(level.size)
            && QuantaCost(take, level.price, rate) <= remaining
            && (take < Quanta(level.size) ==> remaining < QuantaCost(take + 1, level.price, rate))
  {
    var unit := UnitCost(level.price, rate);
    UnitCostBounds(level.price, rate);
    AffordableQuanta(remaining, unit);
    var affordable := Quanta(remaining / unit);
    var take := TakeQuanta(level, remaining, rate);
    MulMono(take as real / 100.0, affordable as real / 100.0, unit);
  }

  function NextFill(level: AskLevel, remaining: real, rate: real): Fill
    requires GoodLevel(level) && GoodRate(rate)
  {
    Fill(level.price, TakeQuanta(level, remaining, rate) as real / 100.0)
  }

  /** A fill's charge: its notional plus its own fee. */
  function Charge(fill: Fill, rate: real): real {
    FillNotional()(fill) + FillFee(rate)(fill)
  }

  /** A level's charge is the cost of the quanta taken from it. */
  lemma ChargeOfTake(level: AskLevel, remaining: real, rate: real)
    requires GoodLevel(level) && GoodRate(rate)
    ensures Charge(NextFill(level, remaining, rate), rate) ==
            QuantaCost(TakeQuanta(level, remaining, rate), level.price, rate)
  {
    Distribute(TakeQuanta(level, remaining, rate) as real / 100.0, level.price, FeePerShare(level.price, rate));
  }

  lemma FillCovered(level: AskLevel, remaining: real, rate: real)
    requires GoodLevel(level) && GoodRate(rate) && remaining >= 0.0
    ensures Charge(NextFill(level, remaining, rate), rate) <= remaining
  {
    hide Charge, QuantaCost, NextFill, TakeQuanta;
    TakeBounds(level, remaining, rate);
    ChargeOfTake(level, remaining, rate);
  }

  lemma OneQuantumMore(quanta: int, price: real, rate: real)
    ensures QuantaCost(quanta + 1, price, rate) == QuantaCost(quanta, price, rate) + UnitCost(price, rate) / 100.0
  {
    hide UnitCost;
    Distribute(UnitCost(price, rate), quanta as real / 100.0, 0.01);
  }

  lemma NextFillBounds(level: AskLevel, remaining: real, rate: real)
    requires GoodLevel(level) && GoodRate(rate) && remaining >= 0.0
    ensures var fill := NextFill(level, remaining, rate);
            && 0.0 <= fill.shares <= RoundShares(level.size)
            && Charge(fill, rate) <= remaining
            && (fill.shares < RoundShares(level.size) ==>
                  remaining - Charge(fill, rate) < UnitCost(level.price, rate) / 100.0)
  {
    hide Charge, QuantaCost, TakeQuanta, UnitCost;
    TakeBounds(level, remaining, rate);
    ChargeOfTake(level, remaining, rate);
    OneQuantumMore(TakeQuanta(level, remaining, rate), level.price, rate);
  }

  /** The fills of the walk, level by level from the cheapest, until the limit price, the money
      or a level that yields nothing. */
  function Greedy(levels: seq<AskLevel>, remaining: real, rate: real, limit: real): seq<Fill>
    requires GoodBook(levels) && GoodRate(rate)
  {
    if levels == [] || levels[0].price > limit then []
    else
      var fill := NextFill(levels[0], remaining, rate);
      if fill.shares <= 0.0 then []
      else [fill] + Greedy(levels[1..], remaining - Charge(fill, rate), rate, limit)
  }

  function WalkOf(fills: seq<Fill>, rate: real): Walk {
    Walk(fills, SumOf(fills, FillShares()), SumOf(fills, FillNotional()), SumOf(fills, FillFee(rate)))
  }

  /** What `walk_asks` answers. */
  function WalkAnswer(asks: seq<AskLevel>, budget: real, rate: real, limit: real, tick: real): WalkResult {
    if budget < 0.0 then Refused(BadBudget)
    else if !GoodRate(rate) then Refused(FeeUnknown)
    else if tick <= 0.0 then Refused(TickMismatch)
    else match FirstBadLevel(asks, tick)
      case Some(code) => Refused(code)
      case None => Walked(WalkOf(Greedy(SortByPrice(asks), budget, rate, limit), rate))
  }

  /** WHEN A BOOK IS WALKED AT ALL, and the refusal otherwise: a negative budget, a rate outside [0, 1), a
      tick that is not positive, or the book's own. */
  lemma WalksIff(asks: seq<AskLevel>, budget: real, rate: real, limit: real, tick: real)
    ensures WalkAnswer(asks, budget, rate, limit, tick).Walked? <==>
            budget >= 0.0 && 0.0 <= rate < 1.0 && tick > 0.0 && forall l | l in asks :: Usable(l, tick)
    ensures WalkAnswer(asks, budget, rate, limit, tick) == Refused(BadBudget) <==> budget < 0.0
    ensures WalkAnswer(asks, budget, rate, limit, tick) == Refused(FeeUnknown) <==>
            budget >= 0.0 && !(0.0 <= rate < 1.0)
    ensures budget >= 0.0 && 0.0 <= rate < 1.0 && tick <= 0.0 ==>
              WalkAnswer(asks, budget, rate, limit, tick) == Refused(TickMismatch)
  {
    if tick > 0.0 {
      var i := FirstBadLevelIs(asks, tick);
      hide Usable, FirstBadLevel;
      if i < |asks| {
        assert asks[i] in asks;
      }
    }
  }

  /** What the walk's loop keeps after `i` levels: the money is accounted for to the last unit, and
      the fills so far followed by the walk of the levels left are the whole walk. */
  ghost predicate WalkInvariant(levels: seq<AskLevel>, i: nat, budget: real, remaining: real,
                                fills: seq<Fill>, notional: real, fee: real, rate: real, limit: real)
    requires GoodBook(levels) && GoodRate(rate)
  {
    && i <= |levels| && remaining >= 0.0
    && budget == remaining + notional + fee
    && notional == SumOf(fills, FillNotional())
    && fee == SumOf(fills, FillFee(rate))
    && GoodBook(levels[i..])
    && Greedy(levels, budget, rate, limit) == fills + Greedy(levels[i..], remaining, rate, limit)
  }

  lemma GreedyTurn(fills: seq<Fill>, levels: seq<AskLevel>, i: nat, remaining: real, rate: real, limit: real)
    requires i < |levels| && GoodBook(levels) && GoodRate(rate)
    ensures GoodBook(levels[i..]) && GoodBook(levels[i + 1..])
    ensures var fill := NextFill(levels[i], remaining, rate);
            fills + Greedy(levels[i..], remaining, rate, limit) ==
            if levels[i].price > limit || fill.shares <= 0.0 then fills
            else (fills + [fill]) + Greedy(levels[i + 1..], remaining - Charge(fill, rate), rate, limit)
  {
    assert levels[i..][0] == levels[i] && levels[i..][1..] == levels[i + 1..];
  }

  lemma WalkTurn(levels: seq<AskLevel>, i: nat, budget: real, remaining: real,
                 fills: seq<Fill>, notional: real, fee: real, rate: real, limit: real)
    requires GoodBook(levels) && GoodRate(rate) && i < |levels|
    requires WalkInvariant(levels, i, budget, remaining, fills, notional, fee, rate, limit)
    ensures GoodLevel(levels[i])
    ensures var fill := NextFill(levels[i], remaining, rate);
            if levels[i].price > limit || fill.shares <= 0.0 then Greedy(levels, budget, rate, limit) == fills
            else WalkInvariant(levels, i + 1, budget, remaining - Charge(fill, rate), fills + [fill],
                               notional + FillNotional()(fill), fee + FillFee(rate)(fill), rate, limit)
  {
    var fill := NextFill(levels[i], remaining, rate);
    GreedyTurn(fills, levels, i, remaining, rate, limit);
    FillCovered(levels[i], remaining, rate);
    SumSnoc(fills, fill, FillNotional());
    SumSnoc(fills, fill, FillFee(rate));
  }

  lemma WalkOver(levels: seq<AskLevel>, budget: real, remaining: real,
                 fills: seq<Fill>, notional: real, fee: real, rate: real, limit: real)
    requires GoodBook(levels) && GoodRate(rate)
    requires WalkInvariant(levels, |levels|, budget, remaining, fills, notional, fee, rate, limit)
    ensures Greedy(levels, budget, rate, limit) == fills
  {
  }

  /** The walk's loop over the sorted levels. */
  method WalkLevels(levels: seq<AskLevel>, budget: real, feeRate: real, limitPrice: real)
    returns (walk: Walk)
    requires GoodBook(levels) && GoodRate(feeRate) && budget >= 0.0
    ensures walk == WalkOf(Greedy(levels, budget, feeRate, limitPrice), feeRate)
    ensures walk.Cost() <= budget
  {
    hide Greedy, NextFill, FillNotional, FillFee;
    var remaining := budget;
    var fills: seq<Fill> := [];
    var notional, fee := 0.0, 0.0;
    var i := 0;
    assert levels[0..] == levels;
    while i < |levels|
      invariant WalkInvariant(levels, i, budget, remaining, fills, notional, fee, feeRate, limitPrice)
    {
      WalkTurn(levels, i, budget, remaining, fills, notional, fee, feeRate, limitPrice);
      if levels[i].price > limitPrice {
        break;
      }
      var fill := NextFill(levels[i], remaining, feeRate);
      if fill.shares <= 0.0 {
        break;
      }
      var levelCost := FillNotional()(fill);
      var levelFees := FillFee(feeRate)(fill);
      fills := fills + [fill];
      notional := notional + levelCost;
      fee := fee + levelFees;
      remaining := remaining - (levelCost + levelFees);
      i := i + 1;
    }
    if i == |levels| {
      WalkOver(levels, budget, remaining, fills, notional, fee, feeRate, limitPrice);
    }
    walk := Walk(fills, SumOf(fills, FillShares()), notional, fee);
  }

  method WalkAsks(asks: seq<AskLevel>, budget: real, feeRate: real, limitPrice: real, tickSize: real)
    returns (result: WalkResult)
    ensures result == WalkAnswer(asks, budget, feeRate, limitPrice, tickSize)
    ensures result.Walked? ==> result.walk.Cost() <= budget
  {
    if budget < 0.0 {
      return Refused(BadBudget);
    }
    if !GoodRate(feeRate) {
      return Refused(FeeUnknown);
    }
    if tickSize <= 0.0 {
      return Refused(TickMismatch);
    }
    var bad := FirstBadLevel(asks, tickSize);
    if bad.Some? {
      return Refused(bad.value);
    }
    var walk := WalkLevels(SortByPrice(asks), budget, feeRate, limitPrice);
    result := Walked(walk);
  }

  ghost predicate UnitsFrom(levels: seq<AskLevel>, rate: real, floor: real) {
    forall l | l in levels :: floor <= UnitCost(l.price, rate)
  }

  lemma NoQuantum(take: int, price: real, rate: real, remaining: real, floor: real)
    requires UnitCost(price, rate) > 0.0 && floor <= UnitCost(price, rate)
    requires QuantaCost(take, price, rate) <= remaining < floor / 100.0
    ensures take <= 0
  {
    hide UnitCost;
    var more := if take >= 1 then take else 1;
    MulMono(0.01, more as real / 100.0, UnitCost(price, rate));
  }

  /** With less money than a quantum of the cheapest level left costs, the walk is over. */
  lemma Stuck(levels: seq<AskLevel>, remaining: real, rate: real, limit: real, floor: real)
    requires GoodBook(levels) && GoodRate(rate)
    requires 0.0 <= remaining < floor / 100.0 && UnitsFrom(levels, rate, floor)
    ensures Greedy(levels, remaining, rate, limit) == []
  {
    if levels != [] {
      assert levels[0] in levels;
      TakeBounds(levels[0], remaining, rate);
      UnitCostBounds(levels[0].price, rate);
      NoQuantum(TakeQuanta(levels[0], remaining, rate), levels[0].price, rate, remaining, floor);
    }
  }

  lemma UnitsSorted(levels: seq<AskLevel>, rate: real)
    requires levels != [] && GoodBook(levels) && GoodRate(rate) && Sorted(levels)
    ensures UnitsFrom(levels, rate, UnitCost(levels[0].price, rate))
  {
    forall l | l in levels
      ensures UnitCost(levels[0].price, rate) <= UnitCost(l.price, rate)
    {
      assert levels[0] in levels;
      if levels[0].price < l.price {
        UnitCostIncreasing(levels[0].price, l.price, rate);
      }
    }
  }

  /** After a level that was not bought to its depth nothing more is bought. */
  lemma ShortTakeEnds(levels: seq<AskLevel>, remaining: real, rate: real, limit: real)
    requires levels != [] && GoodBook(levels) && GoodRate(rate) && Sorted(levels) && remaining >= 0.0
    requires NextFill(levels[0], remaining, rate).shares < RoundShares(levels[0].size)
    ensures var left := remaining - Charge(NextFill(levels[0], remaining, rate), rate);
            && 0.0 <= left < UnitCost(levels[0].price, rate) / 100.0
            && Greedy(levels[1..], left, rate, limit) == []
  {
    var left := remaining - Charge(NextFill(levels[0], remaining, rate), rate);
    NextFillBounds(levels[0], remaining, rate);
    UnitsSorted(levels, rate);
    Stuck(levels[1..], left, rate, limit, UnitCost(levels[0].price, rate));
  }

  ghost predicate PrefixOfBook(fills: seq<Fill>, levels: seq<AskLevel>, limit: real) {
    && |fills| <= |levels|
    && (forall i | 0 <= i < |fills| ::
          && fills[i].price == levels[i].price <= limit
          && 0.0 < fills[i].shares <= RoundShares(levels[i].size) <= levels[i].size)
    && (forall i | 0 <= i < |fills| - 1 :: fills[i].shares == RoundShares(levels[i].size))
  }

  /** The fills are a prefix of the book, cheapest first: every level but the last is bought to its
      rounded depth, and none beyond its recorded size or the limit price. */
  lemma {:induction false} GreedyShape(levels: seq<AskLevel>, remaining: real, rate: real, limit: real)
    requires GoodBook(levels) && GoodRate(rate) && Sorted(levels) && remaining >= 0.0
    ensures PrefixOfBook(Greedy(levels, remaining, rate, limit), levels, limit)
  {
    if levels != [] && levels[0].price <= limit {
      var fill := NextFill(levels[0], remaining, rate);
      if fill.shares > 0.0 {
        var left := remaining - Charge(fill, rate);
        NextFillBounds(levels[0], remaining, rate);
        if fill.shares < RoundShares(levels[0].size) {
          ShortTakeEnds(levels, remaining, rate, limit);
        }
        GreedyShape(levels[1..], left, rate, limit);
        var tail := Greedy(levels[1..], left, rate, limit);
        var fills := Greedy(levels, remaining, rate, limit);
        assert forall i | 1 <= i < |fills| :: fills[i] == tail[i - 1] && levels[i] == levels[1..][i - 1];
      }
    }
  }

  /** The walk never spends more than its money. */
  lemma {:induction false} GreedyCost(levels: seq<AskLevel>, remaining: real, rate: real, limit: real)
    requires GoodBook(levels) && GoodRate(rate) && remaining >= 0.0
    ensures var fills := Greedy(levels, remaining, rate, limit);
            SumOf(fills, FillNotional()) + SumOf(fills, FillFee(rate)) <= remaining
  {
    if levels != [] && levels[0].price <= limit && NextFill(levels[0], remaining, rate).shares > 0.0 {
      var fill := NextFill(levels[0], remaining, rate);
      var left := remaining - Charge(fill, rate);
      FillCovered(levels[0], remaining, rate);
      GreedyCost(levels[1..], left, rate, limit);
      assert Greedy(levels, remaining, rate, limit)[1..] == Greedy(levels[1..], left, rate, limit);
    }
  }
}
