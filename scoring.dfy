/**
 * The two scoring formulas shared by the detectors (analysis_engine.py,
 * `calculate_opportunity_score` and `calculate_investment_rating`).
 */
module Scoring {

  /**
   * Rounding to one decimal place, `round(x, 1)`. Halves round up here; Python rounds the
   * binary float half to even, which differs only on exact ties.
   */
  function Round1(x: real): (r: real)
    ensures x - 0.05 < r <= x + 0.05
  {
    ((10.0 * x + 0.5).Floor as real) / 10.0
  }

  lemma Round1Monotone(x: real, y: real)
    requires x <= y
    ensures Round1(x) <= Round1(y)
  {
    var a, b := 10.0 * x + 0.5, 10.0 * y + 0.5;
    assert a.Floor as real <= a <= b < b.Floor as real + 1.0;
    assert a.Floor <= b.Floor;
  }

  /** A value with one decimal place is left as it is. */
  lemma Round1Exact(n: int)
    ensures Round1(n as real / 10.0) == n as real / 10.0
  {
    var a := 10.0 * (n as real / 10.0) + 0.5;
    assert a == n as real + 0.5;
    assert a.Floor == n;
  }

  /** `min(1.0, x)` */
  function Cap1(x: real): real {
    if x < 1.0 then x else 1.0
  }

  /** How far the opportunity formula is from full marks, before rounding. */
  function OpportunityRaw(profitRatio: real, volatility: real, volume: real): real {
    (Cap1(profitRatio) * 0.6 + Cap1(volatility * 5.0) * 0.2 + Cap1(volume / 200.0) * 0.2) * 100.0
  }

  /** Rounding keeps a value of [0, 100] inside [0, 100], and 100 itself unchanged. */
  lemma Round1Within(x: real)
    ensures 0.0 <= x <= 100.0 ==> 0.0 <= Round1(x) <= 100.0
    ensures x == 100.0 ==> Round1(x) == 100.0
  {
    if 0.0 <= x <= 100.0 {
      Round1Monotone(0.0, x);
      Round1Monotone(x, 100.0);
    }
    Round1Exact(0);
    Round1Exact(1000);
  }

  /**
   * `calculate_opportunity_score(profit_ratio, volatility, volume)`: the score lies in [0, 100]
   * whenever the three inputs are non-negative, and is the full 100 once the profit ratio,
   * volatility and volume reach their caps.
   */
  function OpportunityScore(profitRatio: real, volatility: real, volume: real): (r: real)
    ensures profitRatio >= 0.0 && volatility >= 0.0 && volume >= 0.0 ==> 0.0 <= r <= 100.0
    ensures profitRatio >= 1.0 && volatility >= 0.2 && volume >= 200.0 ==> r == 100.0
  {
    var raw := OpportunityRaw(profitRatio, volatility, volume);
    Round1Within(raw);
    Round1(raw)
  }

  /** Raising any of the three inputs never lowers the score. */
  lemma OpportunityScoreMonotone(p: real, v: real, u: real, p': real, v': real, u': real)
    requires p <= p' && v <= v' && u <= u'
    ensures OpportunityScore(p, v, u) <= OpportunityScore(p', v', u')
  {
    assert u / 200.0 <= u' / 200.0;
    Round1Monotone(OpportunityRaw(p, v, u), OpportunityRaw(p', v', u'));
  }

  /** `max(1, price)` */
  function AtLeast1(x: real): real {
    if x < 1.0 then 1.0 else x
  }

  function InvestmentRaw(price: real, priceChange: real, volume: real): real {
    (Cap1(50.0 / AtLeast1(price)) * 0.3 + (priceChange / 100.0 + 0.5) * 0.5
      + Cap1(volume / 200.0) * 0.2) * 100.0
  }

  /**
   * `calculate_investment_rating(price, price_change, volume)`: the rating lies in [0, 100] when
   * the price change is within ±50 % and the volume is non-negative; outside that band the
   * change term alone can leave the range (`InvestmentRatingLeavesRange`).
   */
  function InvestmentRating(price: real, priceChange: real, volume: real): (r: real)
    ensures -50.0 <= priceChange <= 50.0 && volume >= 0.0 ==> 0.0 <= r <= 100.0
  {
    var raw := InvestmentRaw(price, priceChange, volume);
    PriceFactorAntitone(price, price);
    Round1Within(raw);
    Round1(raw)
  }

  lemma PriceFactorAntitone(price: real, price': real)
    requires price <= price'
    ensures 0.0 < 50.0 / AtLeast1(price') <= 50.0 / AtLeast1(price)
  {
    var a, b := AtLeast1(price), AtLeast1(price');
    assert 1.0 <= a <= b;
    var qa, qb := 50.0 / a, 50.0 / b;
    assert qa * a == 50.0 && qb * b == 50.0;
    assert qb > 0.0;
    assert qb * a <= qb * b;
    assert qb * a <= qa * a;
  }

  /**
   * The rating never drops when the price change or the volume rises, and never rises when
   * the price rises.
   */
  lemma InvestmentRatingMonotone(price: real, change: real, volume: real,
                                 price': real, change': real, volume': real)
    requires price' <= price && change <= change' && volume <= volume'
    ensures InvestmentRating(price, change, volume) <= InvestmentRating(price', change', volume')
  {
    PriceFactorAntitone(price', price);
    assert volume / 200.0 <= volume' / 200.0;
    assert change / 100.0 <= change' / 100.0;
    Round1Monotone(InvestmentRaw(price, change, volume), InvestmentRaw(price', change', volume'));
  }

  /** A price change of +60 % on a cheap, busy item already leaves the range. */
  lemma InvestmentRatingLeavesRange()
    ensures InvestmentRating(1.0, 60.0, 200.0) == 105.0
  {
    assert InvestmentRaw(1.0, 60.0, 200.0) == 1050 as real / 10.0;
    Round1Exact(1050);
  }

  /** Worked example: price 100, change +15 %, volume 250 rates 67.5. */
  lemma InvestmentRatingExampleRising()
    ensures InvestmentRating(100.0, 15.0, 250.0) == 67.5
  {
    assert InvestmentRaw(100.0, 15.0, 250.0) == 675 as real / 10.0;
    Round1Exact(675);
  }

  /** Worked example: price 3, change +1 %, volume 0 rates 55.5. */
  lemma InvestmentRatingExampleCheap()
    ensures InvestmentRating(3.0, 1.0, 0.0) == 55.5
  {
    assert 50.0 / 3.0 >= 1.0;
    assert InvestmentRaw(3.0, 1.0, 0.0) == 555 as real / 10.0;
    Round1Exact(555);
  }
}
