/** Scores and ranks of buyers: internal/kaine/plasmium.go, internal/kaine/ltd.go.
    Scores are real numbers. */
module BuyerScores {
  import opened Basics

  datatype Point = Point(x: real, y: real, z: real)

  /** A station as the queries give it; marketAge is the age of its market data in
      hours at the time of ranking. */
  datatype Station = Station(
    system: string,
    name: string,
    pos: Point,
    largestPad: string,
    economies: seq<string>,
    platinumDemand: int,
    platinumPrice: int,
    osmiumDemand: int,
    osmiumPrice: int,
    ltdDemand: int,
    ltdPrice: int,
    progress: Option<real>,
    marketAge: Option<real>)

  const OPTIMAL_DEMAND := 1288

  /** A demand below the optimum, in proportion to it. */
  function Share(demand: int, points: real): real {
    demand as real / OPTIMAL_DEMAND as real * points
  }

  lemma ProductIsPositive(x: real, y: real)
    requires x > 0.0 && y > 0.0
    ensures x * y > 0.0
  {
  }

  lemma ShareBounds(demand: int, points: real)
    requires 0 < demand < OPTIMAL_DEMAND && points > 0.0
    ensures 0.0 < Share(demand, points) < points
  {
    var x := demand as real / OPTIMAL_DEMAND as real;
    ProductIsPositive(x, points);
    ProductIsPositive(1.0 - x, points);
  }

  predicate HiddenDemand(economies: seq<string>) {
    "Military" in economies || "Colony" in economies
  }

  /** calculatePlasmiumScore */
  function PlasmiumScore(platinum: int, osmium: int, economies: seq<string>): real {
    if platinum >= OPTIMAL_DEMAND then 100.0
    else if osmium >= OPTIMAL_DEMAND then 80.0
    else if platinum > 0 then Share(platinum, 100.0)
    else if osmium > 0 then Share(osmium, 80.0)
    else if HiddenDemand(economies) then 40.0
    else 0.0
  }

  /** A station scores exactly when it asks for either metal or may hide its demand. */
  lemma PlasmiumScoresExactly(platinum: int, osmium: int, economies: seq<string>)
    ensures var score := PlasmiumScore(platinum, osmium, economies);
            && 0.0 <= score <= 100.0
            && (score > 0.0 <==> platinum > 0 || osmium > 0 || HiddenDemand(economies))
  {
    if 0 < platinum < OPTIMAL_DEMAND {
      ShareBounds(platinum, 100.0);
    }
    if 0 < osmium < OPTIMAL_DEMAND {
      ShareBounds(osmium, 80.0);
    }
  }

  /** The scores by demand: full, four fifths, in proportion, or the hidden demand's. */
  lemma PlasmiumScoreIs(platinum: int, osmium: int, economies: seq<string>)
    ensures var score := PlasmiumScore(platinum, osmium, economies);
            && (platinum >= 1288 ==> score == 100.0)
            && (platinum < 1288 <= osmium ==> score == 80.0)
            && (0 < platinum < 1288 && osmium < 1288 ==> score * 1288.0 == platinum as real * 100.0)
            && (platinum <= 0 < osmium < 1288 ==> score * 1288.0 == osmium as real * 80.0)
            && (platinum <= 0 && osmium <= 0 ==>
                  score == if "Military" in economies || "Colony" in economies then 40.0 else 0.0)
  {
  }

  /** More platinum in demand lowers the score exactly where a little of it takes the place
      of more osmium or of the hidden demand. */
  lemma PlatinumLowersExactly(p: int, q: int, osmium: int, economies: seq<string>)
    requires p <= q
    ensures PlasmiumScore(q, osmium, economies) < PlasmiumScore(p, osmium, economies)
       <==> && p <= 0 < q < 1288 && osmium < 1288
            && if osmium > 0 then 5 * q < 4 * osmium
               else q < 516 && ("Military" in economies || "Colony" in economies)
  {
    PlasmiumScoreIs(p, osmium, economies);
    PlasmiumScoreIs(q, osmium, economies);
  }

  /** More osmium does exactly where its optimum takes the place of nearly optimal
      platinum, or a little of it that of the hidden demand. */
  lemma OsmiumLowersExactly(platinum: int, p: int, q: int, economies: seq<string>)
    requires p <= q
    ensures PlasmiumScore(platinum, q, economies) < PlasmiumScore(platinum, p, economies)
       <==> || (p < 1288 <= q && 1031 <= platinum < 1288)
            || (platinum <= 0 && p <= 0 < q < 644 && ("Military" in economies || "Colony" in economies))
  {
    PlasmiumScoreIs(platinum, p, economies);
    PlasmiumScoreIs(platinum, q, economies);
  }

  /** calculateLTDScore */
  function LtdScore(demand: int): real {
    if demand >= OPTIMAL_DEMAND then 100.0 else if demand > 0 then Share(demand, 100.0) else 40.0
  }

  /** Every expansion station scores, so the filter on scores drops none of them; a
      demand below 516 tons scores less than no demand at all. */
  lemma LtdScoresAlways(demand: int)
    ensures 0.0 < LtdScore(demand) <= 100.0
    ensures LtdScore(demand) < LtdScore(0) <==> 0 < demand < 516
  {
    if 0 < demand < OPTIMAL_DEMAND {
      ShareBounds(demand, 100.0);
      assert Share(demand, 100.0) == demand as real * 100.0 / 1288.0;
    }
  }

  lemma LtdScoreIs(demand: int)
    ensures var score := LtdScore(demand);
            && (demand >= 1288 ==> score == 100.0)
            && (0 < demand < 1288 ==> score * 1288.0 == demand as real * 100.0)
            && (demand <= 0 ==> score == 40.0)
  {
  }

  /** More demand lowers the score exactly where it is the first, and less than 516 tons. */
  lemma LtdDemandLowersExactly(p: int, q: int)
    requires p <= q
    ensures LtdScore(q) < LtdScore(p) <==> p <= 0 < q < 516
  {
    LtdScoreIs(p);
    LtdScoreIs(q);
  }

  // ----- Ranks -----

  function Freshness(age: Option<real>): real {
    if age.None? then 0.0
    else if age.value < 6.0 then 100.0
    else if age.value < 24.0 then 75.0
    else if age.value < 48.0 then 40.0
    else if age.value < 168.0 then 15.0
    else 5.0
  }

  function PadScore(pad: string): real {
    if pad == "L" then 50.0 else if pad == "M" then 25.0 else if pad == "S" then 10.0 else 0.0
  }

  function PriceBonus(price: int, full: real): real
    requires full > 0.0
  {
    if price <= 0 then 0.0
    else if price as real / full * 50.0 > 50.0 then 50.0
    else price as real / full * 50.0
  }

  /** progressScoreBonus */
  function ProgressBonus(progress: Option<real>): real {
    if progress.None? then 40.0
    else if progress.value <= 0.0 then 80.0
    else if progress.value < 0.5 then 60.0
    else if progress.value < 1.0 then 40.0
    else if progress.value < 2.0 then 20.0
    else if progress.value < 5.0 then 10.0
    else 0.0
  }

  /** Less progress never means a smaller bonus. */
  lemma ProgressBonusFalls(p: real, q: real)
    requires p <= q
    ensures 0.0 <= ProgressBonus(Some(q)) <= ProgressBonus(Some(p)) <= 80.0
  {
  }

  function Max(a: int, b: int): int {
    if a > b then a else b
  }

  function PlasmiumRank(s: Station, score: real): real {
    Freshness(s.marketAge) + PadScore(s.largestPad) + score
    + PriceBonus(Max(s.platinumPrice, s.osmiumPrice), 300000.0) + ProgressBonus(s.progress)
  }

  function LtdRank(s: Station, score: real): real {
    Freshness(s.marketAge) + PadScore(s.largestPad) + score + PriceBonus(s.ltdPrice, 250000.0)
    + (if "Industrial" in s.economies then 20.0 else 0.0) + ProgressBonus(s.progress)
  }

  method AddFreshness(rank: real, age: Option<real>) returns (r: real)
    ensures r == rank + Freshness(age)
  {
    r := rank;
    if age.Some? {
      var hoursAgo := age.value;
      if hoursAgo < 6.0 {
        r := r + 100.0;
      } else if hoursAgo < 24.0 {
        r := r + 75.0;
      } else if hoursAgo < 48.0 {
        r := r + 40.0;
      } else if hoursAgo < 168.0 {
        r := r + 15.0;
      } else {
        r := r + 5.0;
      }
    }
  }

  /** calculateRankScore */
  method CalculateRankScore(s: Station, score: real) returns (rank: real)
    ensures rank == PlasmiumRank(s, score)
  {
    rank := AddFreshness(0.0, s.marketAge);
    rank := rank + PadScore(s.largestPad);
    rank := rank + score;
    var maxPrice := Max(s.platinumPrice, s.osmiumPrice);
    if maxPrice > 0 {
      var priceBonus := maxPrice as real / 300000.0 * 50.0;
      if priceBonus > 50.0 {
        priceBonus := 50.0;
      }
      rank := rank + priceBonus;
    }
    rank := rank + ProgressBonus(s.progress);
  }

  /** calculateLTDRankScore; one industrial economy is enough. */
  method CalculateLtdRankScore(s: Station, score: real) returns (rank: real)
    ensures rank == LtdRank(s, score)
  {
    rank := AddFreshness(0.0, s.marketAge);
    rank := rank + PadScore(s.largestPad);
    rank := rank + score;
    if s.ltdPrice > 0 {
      var priceBonus := s.ltdPrice as real / 250000.0 * 50.0;
      if priceBonus > 50.0 {
        priceBonus := 50.0;
      }
      rank := rank + priceBonus;
    }
    ghost var before := rank;
    for i := 0 to |s.economies|
      invariant rank == before && "Industrial" !in s.economies[..i]
    {
      if s.economies[i] == "Industrial" {
        rank := rank + 20.0;
        break;
      }
    }
    rank := rank + ProgressBonus(s.progress);
  }

  lemma PriceBonusBounds(price: int, full: real)
    requires full > 0.0
    ensures 0.0 <= PriceBonus(price, full) <= 50.0
  {
    if price > 0 {
      assert price as real / full > 0.0;
    }
  }

  /** The documented maxima of the two ranks. */
  lemma RankBounds(s: Station)
    ensures 0.0 <= PlasmiumRank(s, PlasmiumScore(s.platinumDemand, s.osmiumDemand, s.economies)) <= 380.0
    ensures 0.0 < LtdRank(s, LtdScore(s.ltdDemand)) <= 400.0
  {
    PlasmiumScoresExactly(s.platinumDemand, s.osmiumDemand, s.economies);
    LtdScoresAlways(s.ltdDemand);
    PriceBonusBounds(Max(s.platinumPrice, s.osmiumPrice), 300000.0);
    PriceBonusBounds(s.ltdPrice, 250000.0);
  }

  // ----- Stations that differ in one thing -----

  /** A larger pad ranks higher by the documented points. */
  lemma LargerPadRanksHigher(s: Station, score: real, other: string)
    requires other !in {"L", "M", "S"}
    ensures var l, m, n := s.(largestPad := "L"), s.(largestPad := "M"), s.(largestPad := "S");
            var o := s.(largestPad := other);
            && PlasmiumRank(l, score) == PlasmiumRank(m, score) + 25.0 && LtdRank(l, score) == LtdRank(m, score) + 25.0
            && PlasmiumRank(m, score) == PlasmiumRank(n, score) + 15.0 && LtdRank(m, score) == LtdRank(n, score) + 15.0
            && PlasmiumRank(n, score) == PlasmiumRank(o, score) + 10.0 && LtdRank(n, score) == LtdRank(o, score) + 10.0
  {
  }

  /** What a rank gains over a station without market data, by the age of the data. */
  predicate GainsByAge(gain: real, age: real) {
    && (age < 6.0 ==> gain == 100.0)
    && (6.0 <= age < 24.0 ==> gain == 75.0)
    && (24.0 <= age < 48.0 ==> gain == 40.0)
    && (48.0 <= age < 168.0 ==> gain == 15.0)
    && (168.0 <= age ==> gain == 5.0)
  }

  /** Fresher data never ranks lower, and any data ranks higher than none. */
  lemma FresherRanksHigher(s: Station, score: real, age: real, older: real)
    requires age <= older
    ensures var late, early, none := s.(marketAge := Some(age)), s.(marketAge := Some(older)), s.(marketAge := None);
            && GainsByAge(PlasmiumRank(late, score) - PlasmiumRank(none, score), age)
            && GainsByAge(LtdRank(late, score) - LtdRank(none, score), age)
            && PlasmiumRank(none, score) < PlasmiumRank(early, score) <= PlasmiumRank(late, score)
            && LtdRank(none, score) < LtdRank(early, score) <= LtdRank(late, score)
  {
  }

  /** What a price gains over none: in proportion up to fifty points for the full price. */
  predicate GainsByPrice(gain: real, price: int, full: int) {
    && (price <= 0 ==> gain == 0.0)
    && (0 < price < full ==> gain * full as real == price as real * 50.0)
    && (0 < full <= price ==> gain == 50.0)
  }

  lemma PriceBonusGains(price: int, full: int)
    requires full > 0
    ensures GainsByPrice(PriceBonus(price, full as real), price, full)
  {
    var share := price as real / full as real;
    assert share * full as real == price as real;
    if price >= full {
      assert share >= 1.0;
    } else if price > 0 {
      assert share < 1.0;
      assert share * 50.0 * full as real == price as real * 50.0;
    }
  }

  lemma QuotientGrows(a: real, b: real, full: real)
    requires full > 0.0 && a <= b
    ensures a / full <= b / full
  {
    var x, y := a / full, b / full;
    assert x * full == a && y * full == b;
    assert (x - y) * full == x * full - y * full;
    assert x - y > 0.0 ==> (x - y) * full > 0.0 by {
      if x - y > 0.0 {
        ProductIsPositive(x - y, full);
      }
    }
  }

  lemma PriceBonusGrows(p: int, q: int, full: int)
    requires p <= q && full > 0
    ensures PriceBonus(p, full as real) <= PriceBonus(q, full as real)
  {
    if p > 0 {
      QuotientGrows(p as real, q as real, full as real);
    } else {
      PriceBonusBounds(q, full as real);
    }
  }

  /** A higher price never ranks lower; for plasmium the better of the two prices counts. */
  lemma HigherPriceRanksHigher(s: Station, score: real, p: int, q: int)
    requires p <= q
    ensures && PlasmiumRank(s.(platinumPrice := p), score) <= PlasmiumRank(s.(platinumPrice := q), score)
            && PlasmiumRank(s.(osmiumPrice := p), score) <= PlasmiumRank(s.(osmiumPrice := q), score)
            && LtdRank(s.(ltdPrice := p), score) <= LtdRank(s.(ltdPrice := q), score)
    ensures var none := s.(platinumPrice := 0, osmiumPrice := 0);
            && GainsByPrice(PlasmiumRank(s.(platinumPrice := q, osmiumPrice := p), score) - PlasmiumRank(none, score),
                            q, 300_000)
            && GainsByPrice(PlasmiumRank(s.(platinumPrice := p, osmiumPrice := q), score) - PlasmiumRank(none, score),
                            q, 300_000)
            && GainsByPrice(LtdRank(s.(ltdPrice := q), score) - LtdRank(s.(ltdPrice := 0), score), q, 250_000)
  {
    PriceBonusGains(q, 300_000);
    PriceBonusGains(q, 250_000);
    PriceBonusGrows(p, q, 250_000);
    PriceBonusGrows(Max(p, s.osmiumPrice), Max(q, s.osmiumPrice), 300_000);
    PriceBonusGrows(Max(s.platinumPrice, p), Max(s.platinumPrice, q), 300_000);
  }

  /** What a rank gains over a station of progress five or more, by its progress. */
  predicate GainsByProgress(gain: real, progress: Option<real>) {
    && (progress.None? ==> gain == 40.0)
    && (progress.Some? ==>
          var p := progress.value;
          && (p <= 0.0 ==> gain == 80.0)
          && (0.0 < p < 0.5 ==> gain == 60.0)
          && (0.5 <= p < 1.0 ==> gain == 40.0)
          && (1.0 <= p < 2.0 ==> gain == 20.0)
          && (2.0 <= p < 5.0 ==> gain == 10.0)
          && (5.0 <= p ==> gain == 0.0))
  }

  /** Less progress ranks higher, a higher score by as much as it is higher, and for LTD
      an industrial economy by twenty points. */
  lemma OtherThingsRank(s: Station, score: real, better: real, progress: Option<real>, economies: seq<string>)
    requires "Industrial" in economies
    ensures var at, done := s.(progress := progress), s.(progress := Some(5.0));
            && GainsByProgress(PlasmiumRank(at, score) - PlasmiumRank(done, score), progress)
            && GainsByProgress(LtdRank(at, score) - LtdRank(done, score), progress)
    ensures PlasmiumRank(s, better) - PlasmiumRank(s, score) == better - score == LtdRank(s, better) - LtdRank(s, score)
    ensures LtdRank(s.(economies := economies), score)
         == LtdRank(s, score) + if "Industrial" in s.economies then 0.0 else 20.0
  {
  }
}
