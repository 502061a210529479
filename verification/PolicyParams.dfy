/** Paper-policy parameters with the ranges `parse_policy` enforces
    (src/predict_agent/policy_params.py:96-135), and the fee schedule of a market
    (src/predict_agent/gamma.py:126-137). */
module PolicyParams {
  import opened Prelude

  datatype Side = YES | NO
  datatype ProbabilitySource = Bounds | Mid
  datatype Confidence = Low | Medium | High

  function Rank(c: Confidence): int {
    match c case Low => 0 case Medium => 1 case High => 2
  }

  datatype Params = Params(
    probability: ProbabilitySource,
    startingBankroll: real,
    minEdge: real,
    minConfidence: Confidence,
    kellyFraction: real,
    capMarket: real,
    capEvent: real,
    capCategory: real,
    capTotalOpen: real,
    maxSlippage: real,
    minHoursToClose: int,
    maxBookAgeSeconds: int)

  predicate Fraction(x: real) { 0.0 < x <= 1.0 }

  predicate ValidParams(p: Params) {
    && p.startingBankroll > 0.0
    && 0.0 < p.minEdge < 1.0
    && Fraction(p.kellyFraction)
    && Fraction(p.capMarket) && Fraction(p.capEvent) && Fraction(p.capCategory) && Fraction(p.capTotalOpen)
    && 0.0 <= p.maxSlippage < 1.0
    && p.minHoursToClose > 0 && p.maxBookAgeSeconds > 0
  }

  datatype FeeSchedule = FeeSchedule(exponent: int, takerOnly: bool, rate: Option<real>)

  /** The usable fee rate of a schedule: only linear taker fees in [0, 1) are understood. */
  function FeeRate(schedule: Option<FeeSchedule>): (r: Option<real>)
    ensures r.Some? ==> 0.0 <= r.value < 1.0
  {
    match schedule
    case None => None
    case Some(s) =>
      if s.exponent != 1 || !s.takerOnly then None
      else match s.rate
        case None => None
        case Some(rate) => if 0.0 <= rate < 1.0 then Some(rate) else None
  }

  /** A SCHEDULE GIVES A RATE exactly when it is a linear taker fee with a rate in [0, 1). */
  lemma FeeRateIff(schedule: Option<FeeSchedule>, rate: real)
    ensures FeeRate(schedule) == Some(rate) <==>
            && schedule.Some? && schedule.value.exponent == 1 && schedule.value.takerOnly
            && schedule.value.rate == Some(rate) && 0.0 <= rate < 1.0
  {
  }

  /** High is above medium and medium above low; no confidence at all is below every one. */
  lemma ConfidenceOrder(c: Confidence, least: Confidence)
    ensures Rank(least) <= Rank(c) <==> c == High || least == Low || c == least
    ensures -1 < Rank(least)
  {
  }
}
