/** Cross-asset sentiment (kernel/cross_asset_sentiment.py), in exact arithmetic over the reals. */
module Sentiment {
  import opened Numbers
  import opened Sorting
  import opened Texts

  // ---- weighted sums ----

  datatype Weighted = Weighted(value: real, weight: real)

  function Total(s: seq<Weighted>): real {
    if s == [] then 0.0 else Total(s[..|s| - 1]) + s[|s| - 1].weight
  }

  /** Weighted absolute deviation of the values from a point. */
  function Deviation(s: seq<Weighted>, x: real): real {
    if s == [] then 0.0 else Deviation(s[..|s| - 1], x) + Term(s[|s| - 1], x)
  }

  function Term(e: Weighted, x: real): real { e.weight * Abs(e.value - x) }

  /** Weight of the values strictly below, and at or below, a point. */
  function Below(s: seq<Weighted>, m: real): real {
    if s == [] then 0.0
    else Below(s[..|s| - 1], m) + if s[|s| - 1].value < m then s[|s| - 1].weight else 0.0
  }

  function AtMost(s: seq<Weighted>, m: real): real {
    if s == [] then 0.0
    else AtMost(s[..|s| - 1], m) + if s[|s| - 1].value <= m then s[|s| - 1].weight else 0.0
  }

  predicate AllPositive(s: seq<Weighted>) { forall i :: 0 <= i < |s| ==> s[i].weight > 0.0 }

  function Positive(s: seq<Weighted>): (r: seq<Weighted>)
    ensures AllPositive(r)
    ensures forall e :: e in r <==> e in s && e.weight > 0.0
  {
    if s == [] then []
    else
      var last := s[|s| - 1];
      assert s == s[..|s| - 1] + [last];
      if last.weight > 0.0 then Positive(s[..|s| - 1]) + [last] else Positive(s[..|s| - 1])
  }

  // ---- stable sort by value ----

  predicate Higher(a: Weighted, b: Weighted) { a.value > b.value }

  function SortByValue(s: seq<Weighted>): seq<Weighted> { Sorted(s, Higher) }

  lemma {:induction false} InsertedDeviation(s: seq<Weighted>, e: Weighted, x: real)
    ensures Deviation(Inserted(s, e, Higher), x) == Deviation(s, x) + Term(e, x)
  {
    if s == [] || s[|s| - 1].value <= e.value {
      assert (s + [e])[..|s|] == s;
    } else {
      var front := Inserted(s[..|s| - 1], e, Higher);
      InsertedDeviation(s[..|s| - 1], e, x);
      assert (front + [s[|s| - 1]])[..|front|] == front;
    }
  }

  /** Sorting leaves the deviation from every point as it was. */
  lemma {:induction false} SortKeepsDeviation(s: seq<Weighted>, x: real)
    ensures Deviation(SortByValue(s), x) == Deviation(s, x)
  {
    if s != [] {
      var rest, e := s[..|s| - 1], s[|s| - 1];
      SortKeepsDeviation(rest, x);
      InsertedDeviation(SortByValue(rest), e, x);
      assert SortByValue(s) == Inserted(SortByValue(rest), e, Higher);
    }
  }

  // ---- the weighted median ----

  /** The least minimiser of the deviation over all reals. */
  ghost predicate LeastMinimiser(s: seq<Weighted>, m: real) {
    (forall x: real :: Deviation(s, m) <= Deviation(s, x))
    && (forall x: real :: x < m ==> Deviation(s, m) < Deviation(s, x))
  }

  lemma LeastMinimiserIsUnique(s: seq<Weighted>, m: real, n: real)
    requires LeastMinimiser(s, m) && LeastMinimiser(s, n)
    ensures m == n
  {
    var atM, atN := Deviation(s, m), Deviation(s, n);
    assert atM <= atN && atN <= atM;
  }

  lemma Scale(w: real, a: real, b: real)
    requires w >= 0.0 && a >= b
    ensures w * a >= w * b
  {
    assert w * (a - b) >= 0.0;
  }

  /** Moving the point a distance d from m to x changes one term by at least d times the signed weight. */
  lemma TermSlope(e: Weighted, m: real, x: real, d: real, signed: real)
    requires e.weight > 0.0 && d == Abs(m - x)
    requires signed == if (if x < m then e.value >= m else e.value <= m) then e.weight else -e.weight
    ensures Term(e, x) >= Term(e, m) + d * signed
  {
    if signed == e.weight {
      Scale(e.weight, Abs(e.value - x), Abs(e.value - m) + d);
    } else {
      Scale(e.weight, Abs(e.value - x), Abs(e.value - m) - d);
    }
  }

  lemma Distribute(d: real, pull: real, a: real, b: real)
    requires pull == a + b
    ensures d * pull == d * a + d * b
  {
  }

  lemma {:induction false} LeftSlope(s: seq<Weighted>, m: real, x: real, d: real, pull: real)
    requires AllPositive(s) && x < m && d == m - x && pull == Total(s) - 2.0 * Below(s, m)
    ensures Deviation(s, x) >= Deviation(s, m) + d * pull
  {
    if s != [] {
      var rest, e := s[..|s| - 1], s[|s| - 1];
      var signed := if e.value >= m then e.weight else -e.weight;
      var before := pull - signed;
      assert before == Total(rest) - 2.0 * Below(rest, m);
      LeftSlope(rest, m, x, d, before);
      TermSlope(e, m, x, d, signed);
      Distribute(d, pull, before, signed);
    }
  }

  lemma {:induction false} RightSlope(s: seq<Weighted>, m: real, x: real, d: real, pull: real)
    requires AllPositive(s) && m <= x && d == x - m && pull == 2.0 * AtMost(s, m) - Total(s)
    ensures Deviation(s, x) >= Deviation(s, m) + d * pull
  {
    if s != [] {
      var rest, e := s[..|s| - 1], s[|s| - 1];
      var signed := if e.value <= m then e.weight else -e.weight;
      var before := pull - signed;
      assert before == 2.0 * AtMost(rest, m) - Total(rest);
      RightSlope(rest, m, x, d, before);
      TermSlope(e, m, x, d, signed);
      Distribute(d, pull, before, signed);
    }
  }

  lemma ProductSign(a: real, b: real)
    ensures a > 0.0 && b > 0.0 ==> a * b > 0.0
    ensures a >= 0.0 && b >= 0.0 ==> a * b >= 0.0
  {
  }

  /** A point with less than half the weight below it and at least half at or below it. */
  lemma HalfWeightMinimises(s: seq<Weighted>, m: real)
    requires AllPositive(s) && 2.0 * Below(s, m) < Total(s) <= 2.0 * AtMost(s, m)
    ensures LeastMinimiser(s, m)
  {
    forall x: real ensures Deviation(s, m) <= Deviation(s, x) && (x < m ==> Deviation(s, m) < Deviation(s, x)) {
      HalfWeightAt(s, m, x);
    }
  }

  lemma HalfWeightAt(s: seq<Weighted>, m: real, x: real)
    requires AllPositive(s) && 2.0 * Below(s, m) < Total(s) <= 2.0 * AtMost(s, m)
    ensures Deviation(s, m) <= Deviation(s, x)
    ensures x < m ==> Deviation(s, m) < Deviation(s, x)
  {
    var d := if x < m then m - x else x - m;
    var pull := if x < m then Total(s) - 2.0 * Below(s, m) else 2.0 * AtMost(s, m) - Total(s);
    ProductSign(d, pull);
    if x < m { LeftSlope(s, m, x, d, pull); } else { RightSlope(s, m, x, d, pull); }
  }

  /** In ascending order the running total at an element bounds the weight below it, and with it the weight
      at or below it. */
  lemma {:induction false} RunningTotals(s: seq<Weighted>, k: nat, n: nat)
    requires AllPositive(s) && Ascending(s, Higher) && k < |s| && n <= |s|
    ensures n <= k ==> Below(s[..n], s[k].value) <= Total(s[..n]) && AtMost(s[..n], s[k].value) == Total(s[..n])
    ensures n > k ==> Below(s[..n], s[k].value) <= Total(s[..k]) && AtMost(s[..n], s[k].value) >= Total(s[..k + 1])
    decreases n
  {
    if n > 0 {
      RunningTotals(s, k, n - 1);
      assert s[..n][..n - 1] == s[..n - 1];
      assert s[..n][n - 1] == s[n - 1];
    }
  }

  method WeightedMedian(values: seq<Weighted>) returns (r: Result<real>)
    ensures r.Err? <==> Positive(values) == []
    ensures r.Ok? ==> LeastMinimiser(Positive(values), r.value)
                      && exists e :: e in Positive(values) && e.value == r.value
  {
    var kept: seq<Weighted> := [];
    for i := 0 to |values|
      invariant kept == Positive(values[..i])
    {
      assert values[..i + 1][..i] == values[..i];
      if values[i].weight > 0.0 { kept := kept + [values[i]]; }
    }
    assert values[..|values|] == values;
    var positive := SortByValue(kept);
    if positive == [] { return Err("weighted median requires positive weight"); }
    SortedAscends(kept, Higher);
    SortedMembers(kept, Higher);
    forall i | 0 <= i < |positive| ensures positive[i].weight > 0.0 { assert positive[i] in kept; }
    var m := FirstPastHalf(positive);
    MinimiserOfSorted(kept, m);
    return Ok(m);
  }

  /** The first value, in ascending order, at which the running weight reaches half the total. */
  method FirstPastHalf(positive: seq<Weighted>) returns (m: real)
    requires positive != [] && AllPositive(positive) && Ascending(positive, Higher)
    ensures LeastMinimiser(positive, m)
    ensures exists e :: e in positive && e.value == m
  {
    var total := 0.0;
    for i := 0 to |positive|
      invariant total == Total(positive[..i])
    {
      assert positive[..i + 1][..i] == positive[..i];
      total := total + positive[i].weight;
    }
    assert positive[..|positive|] == positive;
    TotalIsPositive(positive);
    var threshold, cumulative := total / 2.0, 0.0;
    for k := 0 to |positive|
      invariant cumulative == Total(positive[..k]) < threshold
    {
      assert positive[..k + 1][..k] == positive[..k];
      cumulative := cumulative + positive[k].weight;
      if cumulative >= threshold {
        RunningTotals(positive, k, |positive|);
        HalfWeightMinimises(positive, positive[k].value);
        assert positive[k] in positive;
        return positive[k].value;
      }
    }
    assert false;
    return 0.0;
  }

  lemma MinimiserOfSorted(s: seq<Weighted>, m: real)
    requires LeastMinimiser(SortByValue(s), m)
    ensures LeastMinimiser(s, m)
  {
    forall x: real ensures Deviation(s, m) <= Deviation(s, x) && (x < m ==> Deviation(s, m) < Deviation(s, x)) {
      SortKeepsDeviation(s, m);
      SortKeepsDeviation(s, x);
    }
  }

  lemma {:induction false} TotalIsPositive(s: seq<Weighted>)
    requires AllPositive(s)
    ensures Total(s) >= 0.0 && (s != [] ==> Total(s) > 0.0)
  {
    if s != [] { TotalIsPositive(s[..|s| - 1]); }
  }

  // ---- component scores ----

  function ScaledScore(value: Option<real>, fullScale: real): Option<real>
    requires fullScale > 0.0
  {
    if value.None? then None else Some(Min(Max(value.value / fullScale * 100.0, -100.0), 100.0))
  }

  /** What the price and open-interest score takes the square root of. */
  function Strength(priceReturn: real, oiChange: real, priceScale: real, oiScale: real): real
    requires priceScale > 0.0 && oiScale > 0.0
  {
    Min(Abs(priceReturn) / priceScale, 1.0) * Min(Abs(oiChange) / oiScale, 1.0)
  }

  const NEGLIGIBLE := 0.000000000001

  function PriceOiScore(priceReturn: Option<real>, oiChange: Option<real>, root: real): Option<real> {
    if priceReturn.None? || oiChange.None? then None
    else if Abs(priceReturn.value) <= NEGLIGIBLE || Abs(oiChange.value) <= NEGLIGIBLE then Some(0.0)
    else if priceReturn.value > 0.0 && oiChange.value > 0.0 then Some(100.0 * root)
    else if priceReturn.value > 0.0 then Some(40.0 * root)
    else if oiChange.value > 0.0 then Some(-100.0 * root)
    else Some(-60.0 * root)
  }

  function FundingScore(value: real, moderate: real, extreme: real): real
    requires 0.0 < moderate < extreme
  {
    var magnitude := Abs(value);
    var sign := if value >= 0.0 then 1.0 else -1.0;
    if magnitude <= moderate then sign * magnitude / moderate * 100.0
    else if magnitude < extreme then sign * (1.0 - (magnitude - moderate) / (extreme - moderate)) * 100.0
    else -sign * 50.0
  }

  function LiquidationScore(longs: real, shorts: real): real {
    if longs + shorts <= 0.0 then 0.0 else (shorts - longs) / (longs + shorts) * 100.0
  }

  predicate InRange(x: real) { -100.0 <= x <= 100.0 }

  lemma Ratio(a: real, b: real)
    requires 0.0 <= a && 0.0 < b
    ensures 0.0 <= a / b && (0.0 < a ==> 0.0 < a / b) && (a <= b ==> a / b <= 1.0) && (a < b ==> a / b < 1.0) && (a / b == 1.0 ==> a == b)
    ensures -a / b == -(a / b)
  {
  }

  lemma RootInUnit(root: real, square: real)
    requires 0.0 <= root && root * root == square && square <= 1.0
    ensures root <= 1.0
  {
    if root > 1.0 { Scale(root, root, 1.0); }
  }

  lemma StrengthInUnit(priceReturn: real, oiChange: real, priceScale: real, oiScale: real)
    requires priceScale > 0.0 && oiScale > 0.0
    ensures 0.0 <= Strength(priceReturn, oiChange, priceScale, oiScale) <= 1.0
  {
    Ratio(Abs(priceReturn), priceScale);
    Ratio(Abs(oiChange), oiScale);
    var a, b := Min(Abs(priceReturn) / priceScale, 1.0), Min(Abs(oiChange) / oiScale, 1.0);
    Scale(a, b, 0.0);
    Scale(a, 1.0, b);
  }

  /** The funding score is odd away from zero, follows the sign of the rate below the extreme and opposes it
      from there on, stays in range, and reaches 100 in size exactly at the moderate rate. */
  lemma FundingShape(value: real, moderate: real, extreme: real)
    requires 0.0 < moderate < extreme
    ensures FundingScore(-value, moderate, extreme) == -FundingScore(value, moderate, extreme)
    ensures InRange(FundingScore(value, moderate, extreme))
    ensures value > 0.0 ==> (FundingScore(value, moderate, extreme) > 0.0 <==> value < extreme)
    ensures Abs(FundingScore(value, moderate, extreme)) == 100.0 <==> Abs(value) == moderate
  {
    var magnitude := Abs(value);
    Ratio(magnitude, moderate);
    if moderate < magnitude { Ratio(magnitude - moderate, extreme - moderate); }
    assert 1.0 * magnitude == magnitude && -1.0 * magnitude == -magnitude;
    if 0.0 < magnitude <= moderate { assert magnitude / moderate > 0.0; }
    if moderate < magnitude < extreme { assert (magnitude - moderate) / (extreme - moderate) > 0.0; }
  }

  lemma RatioGrows(a: real, b: real, scale: real)
    requires 0.0 <= a <= b && 0.0 < scale
    ensures 0.0 <= a / scale <= b / scale
    ensures a / scale >= 1.0 <==> a >= scale
  {
    var q, r := a / scale, b / scale;
    assert q * scale == a && r * scale == b;
    if q < 1.0 { assert (1.0 - q) * scale > 0.0; } else { Scale(scale, q, 1.0); }
  }

  lemma ProductGrows(a: real, b: real, a': real, b': real)
    requires 0.0 <= a <= a' && 0.0 <= b <= b'
    ensures a * b <= a' * b'
  {
    var wider, taller := a' - a, b' - b;
    assert wider * b' >= 0.0 && a * taller >= 0.0;
    assert a' * b' - a * b == wider * b' + a * taller;
  }

  lemma UnitProduct(a: real, b: real)
    requires 0.0 <= a <= 1.0 && 0.0 <= b <= 1.0
    ensures a * b == 1.0 <==> a == 1.0 && b == 1.0
  {
    Scale(a, 1.0, b);
    Scale(b, 1.0, a);
    if a == 1.0 { assert a * b == 1.0 * b; }
  }

  /** Larger moves have at least the strength of smaller ones, and all of it exactly when both reach full scale. */
  lemma StrengthGrows(price: real, oi: real, price': real, oi': real, priceScale: real, oiScale: real)
    requires priceScale > 0.0 && oiScale > 0.0 && Abs(price) <= Abs(price') && Abs(oi) <= Abs(oi')
    ensures Strength(price, oi, priceScale, oiScale) <= Strength(price', oi', priceScale, oiScale)
    ensures Strength(price, oi, priceScale, oiScale) == 1.0 <==> Abs(price) >= priceScale && Abs(oi) >= oiScale
  {
    RatioGrows(Abs(price), Abs(price'), priceScale);
    RatioGrows(Abs(oi), Abs(oi'), oiScale);
    var a, b := Min(Abs(price) / priceScale, 1.0), Min(Abs(oi) / oiScale, 1.0);
    ProductGrows(a, b, Min(Abs(price') / priceScale, 1.0), Min(Abs(oi') / oiScale, 1.0));
    UnitProduct(a, b);
  }

  lemma SquareGrows(a: real, b: real)
    requires 0.0 <= a < b
    ensures a * a < b * b
  {
    var gap := b - a;
    assert gap * b > 0.0 && a * gap >= 0.0;
    assert b * b - a * a == gap * b + a * gap;
  }

  lemma RootGrows(root: real, root': real)
    requires 0.0 <= root && 0.0 <= root' && root * root <= root' * root'
    ensures root <= root'
  {
    if root' < root { SquareGrows(root', root); }
  }

  lemma RootOfOne(root: real)
    requires 0.0 <= root <= 1.0
    ensures root == 1.0 <==> root * root == 1.0
  {
    UnitProduct(root, root);
  }

  predicate SquaresTo(root: real, square: real) { 0.0 <= root && root * root == square }

  /** The score grows with the size of both moves, whatever the scales. */
  lemma PriceOiGrows(price: real, oi: real, root: real, price': real, oi': real, root': real, priceScale: real,
                     oiScale: real)
    requires priceScale > 0.0 && oiScale > 0.0
    requires SquaresTo(root, Strength(price, oi, priceScale, oiScale))
    requires SquaresTo(root', Strength(price', oi', priceScale, oiScale))
    requires Abs(price) <= Abs(price') && Abs(oi) <= Abs(oi')
    requires (price > 0.0 <==> price' > 0.0) && (oi > 0.0 <==> oi' > 0.0)
    ensures Abs(PriceOiScore(Some(price), Some(oi), root).value) <= Abs(PriceOiScore(Some(price'), Some(oi'), root').value)
  {
    StrengthGrows(price, oi, price', oi', priceScale, oiScale);
    RootGrows(root, root');
  }

  /** The score's sign is the price's; it is largest when open interest rises and both moves reach full scale, and only
      then; a fall of open interest in place of an equal rise weakens it and keeps its sign. */
  lemma PriceOiPeak(price: real, oi: real, root: real, priceScale: real, oiScale: real)
    requires priceScale > 0.0 && oiScale > 0.0
    requires SquaresTo(root, Strength(price, oi, priceScale, oiScale))
    ensures var score := PriceOiScore(Some(price), Some(oi), root).value;
            var reversed := PriceOiScore(Some(price), Some(-oi), root).value;
            InRange(score)
            && (score > 0.0 <==> price > NEGLIGIBLE && Abs(oi) > NEGLIGIBLE)
            && (score < 0.0 <==> price < -NEGLIGIBLE && Abs(oi) > NEGLIGIBLE)
            && (Abs(score) == 100.0 <==> Abs(price) > NEGLIGIBLE && oi > NEGLIGIBLE
                                         && Abs(price) >= priceScale && oi >= oiScale)
            && (oi > 0.0 ==> Abs(reversed) <= Abs(score) && (reversed == score <==> score == 0.0)
                             && (reversed > 0.0 <==> score > 0.0))
  {
    StrengthGrows(price, oi, price, oi, priceScale, oiScale);
    StrengthInUnit(price, oi, priceScale, oiScale);
    RootInUnit(root, Strength(price, oi, priceScale, oiScale));
    RootOfOne(root);
    if Abs(price) > NEGLIGIBLE && Abs(oi) > NEGLIGIBLE {
      StrengthIsPositive(price, oi, priceScale, oiScale);
    }
  }

  lemma StrengthIsPositive(price: real, oi: real, priceScale: real, oiScale: real)
    requires priceScale > 0.0 && oiScale > 0.0 && price != 0.0 && oi != 0.0
    ensures Strength(price, oi, priceScale, oiScale) > 0.0
  {
    Ratio(Abs(price), priceScale);
    Ratio(Abs(oi), oiScale);
    var a, b := Min(Abs(price) / priceScale, 1.0), Min(Abs(oi) / oiScale, 1.0);
    assert a > 0.0 && b > 0.0 && a * b > 0.0;
  }

  lemma LiquidationInRange(longs: real, shorts: real)
    requires longs >= 0.0 && shorts >= 0.0
    ensures InRange(LiquidationScore(longs, shorts))
  {
    if longs + shorts > 0.0 {
      var net, total := shorts - longs, longs + shorts;
      Ratio(Abs(net), total);
      assert net / total == if net < 0.0 then -(Abs(net) / total) else Abs(net) / total;
    }
  }

  // ---- one instrument ----

  datatype Observation = Observation(at: real, mark: real, oracle: Option<real>, openInterest: Option<real>,
                                     funding: Option<real>, volume: Option<real>, quote: Option<(real, real)>,
                                     imbalance: Option<real>, liquidations: Option<(real, real)>, active: bool)

  datatype Policy = Policy(maxAge: real, maxGap: real, maxSpreadBps: real, maxBasis: real, priceScale: real,
                           oiScale: real, basisScale: real, moderateFunding: real, extremeFunding: real,
                           minComponentWeight: real, minCoverage: real, riskOn: real, riskOff: real)
  {
    predicate Valid() {
      priceScale > 0.0 && oiScale > 0.0 && basisScale > 0.0 && 0.0 < moderateFunding < extremeFunding
      && 0.0 < minComponentWeight <= 1.0 && 0.0 < minCoverage <= 1.0 && riskOff < 0.0 < riskOn
    }
  }

  predicate ValidObservation(o: Observation) {
    o.mark > 0.0 && (o.oracle.Some? ==> o.oracle.value > 0.0) && (o.openInterest.Some? ==> o.openInterest.value >= 0.0)
    && (o.quote.Some? ==> 0.0 < o.quote.value.0 < o.quote.value.1)
    && (o.imbalance.Some? ==> -1.0 <= o.imbalance.value <= 1.0)
    && (o.liquidations.Some? ==> o.liquidations.value.0 >= 0.0 && o.liquidations.value.1 >= 0.0)
  }

  datatype Assessment = Assessment(score: Option<real>, confidence: real, reasons: seq<string>)

  function CausalPrevious(p: Policy, current: Observation, previous: Option<Observation>): Option<Observation> {
    if previous.None? || previous.value.at >= current.at || current.at - previous.value.at > p.maxGap then None
    else previous
  }

  function Change(now: real, before: real): real
    requires before > 0.0
  {
    now / before - 1.0
  }

  function QualityReasons(p: Policy, minVolume: Option<real>, o: Observation, asof: real): seq<string>
    requires ValidObservation(o)
  {
    var age := asof - o.at;
    (if age < 0.0 then ["future_observation"] else if age > p.maxAge then ["stale_observation"] else [])
    + (if !o.active then ["inactive_instrument"] else [])
    + (if minVolume.Some? && (o.volume.None? || o.volume.value < minVolume.value) then ["insufficient_liquidity"] else [])
    + (if o.oracle.Some? && Abs(Change(o.mark, o.oracle.value)) > p.maxBasis then ["oracle_basis_outlier"] else [])
    + (if o.quote.Some?
          && (o.quote.value.1 - o.quote.value.0) / ((o.quote.value.0 + o.quote.value.1) / 2.0) * 10000.0 > p.maxSpreadBps
       then ["spread_too_wide"] else [])
  }

  function PriceReturn(o: Observation, previous: Option<Observation>): Option<real>
    requires previous.Some? ==> ValidObservation(previous.value)
  {
    if previous.None? then None else Some(Change(o.mark, previous.value.mark))
  }

  function OiChange(o: Observation, previous: Option<Observation>): Option<real> {
    if previous.None? || previous.value.openInterest.None? || o.openInterest.None?
       || previous.value.openInterest.value <= 0.0 then None
    else Some(Change(o.openInterest.value, previous.value.openInterest.value))
  }

  /** root is the square root the price and open-interest component needs, when it needs one. */
  ghost predicate IsRoot(p: Policy, o: Observation, previous: Option<Observation>, root: real)
    requires p.Valid() && (previous.Some? ==> ValidObservation(previous.value))
  {
    var r, c := PriceReturn(o, previous), OiChange(o, previous);
    0.0 <= root && (r.Some? && c.Some? ==> root * root == Strength(r.value, c.value, p.priceScale, p.oiScale))
  }

  /** Price trend, price and open interest, funding, signed flow, liquidation and basis, in that order. */
  function Components(p: Policy, o: Observation, previous: Option<Observation>, root: real): (r: seq<Option<real>>)
    requires p.Valid() && ValidObservation(o) && (previous.Some? ==> ValidObservation(previous.value))
    ensures |r| == 6
  {
    [ScaledScore(PriceReturn(o, previous), p.priceScale),
     PriceOiScore(PriceReturn(o, previous), OiChange(o, previous), root),
     if o.funding.None? then None else Some(FundingScore(o.funding.value, p.moderateFunding, p.extremeFunding)),
     if o.imbalance.None? then None else Some(100.0 * o.imbalance.value),
     if o.liquidations.None? then None else Some(LiquidationScore(o.liquidations.value.0, o.liquidations.value.1)),
     ScaledScore(if o.oracle.None? then None else Some(Change(o.mark, o.oracle.value)), p.basisScale)]
  }

  const WEIGHTS: seq<real> := [0.20, 0.25, 0.15, 0.20, 0.10, 0.10]

  function AvailableWeight(c: seq<Option<real>>, w: seq<real>): real
    requires |c| <= |w|
  {
    if c == [] then 0.0
    else AvailableWeight(c[..|c| - 1], w) + if c[|c| - 1].Some? then w[|c| - 1] else 0.0
  }

  function WeightedSum(c: seq<Option<real>>, w: seq<real>): real
    requires |c| <= |w|
  {
    if c == [] then 0.0
    else WeightedSum(c[..|c| - 1], w) + if c[|c| - 1].Some? then w[|c| - 1] * c[|c| - 1].value else 0.0
  }

  /** The weighted mean of the available components. */
  function Mean(c: seq<Option<real>>): Option<real>
    requires |c| == 6
  {
    var available := AvailableWeight(c, WEIGHTS);
    if available > 0.0 then Some(WeightedSum(c, WEIGHTS) / available) else None
  }

  function Assess(p: Policy, minVolume: Option<real>, current: Option<Observation>, previous: Option<Observation>,
                  asof: real, root: real): Assessment
    requires p.Valid() && (current.Some? ==> ValidObservation(current.value))
    requires previous.Some? ==> ValidObservation(previous.value)
  {
    if current.None? then Assessment(None, 0.0, ["missing_observation"])
    else
      var reasons := QualityReasons(p, minVolume, current.value, asof);
      if reasons != [] then Assessment(None, 0.0, reasons)
      else
        var c := Components(p, current.value, CausalPrevious(p, current.value, previous), root);
        var available := AvailableWeight(c, WEIGHTS);
        if available < p.minComponentWeight then Assessment(None, 0.0, []) else Assessment(Mean(c), available, [])
  }

  predicate ComponentsInRange(c: seq<Option<real>>) { forall i :: 0 <= i < |c| && c[i].Some? ==> InRange(c[i].value) }

  lemma ComponentsStayInRange(p: Policy, o: Observation, previous: Option<Observation>, root: real)
    requires p.Valid() && ValidObservation(o) && (previous.Some? ==> ValidObservation(previous.value))
    requires IsRoot(p, o, previous, root)
    ensures ComponentsInRange(Components(p, o, previous, root))
  {
    var r, c := PriceReturn(o, previous), OiChange(o, previous);
    if r.Some? && c.Some? {
      StrengthInUnit(r.value, c.value, p.priceScale, p.oiScale);
      RootInUnit(root, Strength(r.value, c.value, p.priceScale, p.oiScale));
    }
    if o.funding.Some? { FundingShape(o.funding.value, p.moderateFunding, p.extremeFunding); }
    if o.liquidations.Some? { LiquidationInRange(o.liquidations.value.0, o.liquidations.value.1); }
  }

  predicate Between(c: seq<Option<real>>, lo: real, hi: real) {
    forall i :: 0 <= i < |c| && c[i].Some? ==> lo <= c[i].value <= hi
  }

  /** A sum over a total weight whose mean lies in an interval. */
  predicate MeanIn(lo: real, hi: real, total: real, sum: real) { lo * total <= sum <= hi * total }

  lemma {:induction false} SumBetween(c: seq<Option<real>>, w: seq<real>, lo: real, hi: real)
    requires |c| <= |w| && Between(c, lo, hi) && forall i :: 0 <= i < |w| ==> w[i] > 0.0
    ensures MeanIn(lo, hi, AvailableWeight(c, w), WeightedSum(c, w))
  {
    if c != [] {
      var rest, last, weight := c[..|c| - 1], c[|c| - 1], w[|c| - 1];
      SumBetween(rest, w, lo, hi);
    }
  }

  lemma QuotientBetween(sum: real, weight: real, lo: real, hi: real)
    requires weight > 0.0 && MeanIn(lo, hi, weight, sum)
    ensures lo <= sum / weight <= hi
  {
    var q := sum / weight;
    assert q * weight == sum;
  }

  /** An instrument's score is a mean of its available components: it never leaves an interval they all lie in. */
  lemma ScoreIsBetweenComponents(p: Policy, minVolume: Option<real>, current: Observation,
                                 previous: Option<Observation>, asof: real, root: real, lo: real, hi: real)
    requires p.Valid() && ValidObservation(current) && (previous.Some? ==> ValidObservation(previous.value))
    requires Between(Components(p, current, CausalPrevious(p, current, previous), root), lo, hi)
    ensures var a := Assess(p, minVolume, Some(current), previous, asof, root);
            a.score.Some? ==> lo <= a.score.value <= hi
  {
    var c := Components(p, current, CausalPrevious(p, current, previous), root);
    var score := Mean(c);
    if AvailableWeight(c, WEIGHTS) >= p.minComponentWeight { MeanBetween(c, lo, hi); }
    assert Assess(p, minVolume, Some(current), previous, asof, root).score in {None, score};
  }

  lemma MeanBetween(c: seq<Option<real>>, lo: real, hi: real)
    requires |c| == 6 && Between(c, lo, hi) && AvailableWeight(c, WEIGHTS) > 0.0
    ensures Mean(c).Some? && lo <= Mean(c).value <= hi
  {
    SumBetween(c, WEIGHTS, lo, hi);
    QuotientBetween(WeightedSum(c, WEIGHTS), AvailableWeight(c, WEIGHTS), lo, hi);
  }

  predicate Complete(c: seq<Option<real>>) { forall i :: 0 <= i < |c| ==> c[i].Some? }

  function First(n: nat): real { if n == 0 then 0.0 else First(n - 1) + if n <= 6 then WEIGHTS[n - 1] else 0.0 }

  /** The weight available is all there is exactly when every component is there. */
  lemma {:induction false} FullWeightIffComplete(c: seq<Option<real>>)
    requires |c| <= 6
    ensures AvailableWeight(c, WEIGHTS) <= First(|c|)
    ensures AvailableWeight(c, WEIGHTS) == First(|c|) <==> Complete(c)
  {
    if c != [] {
      FullWeightIffComplete(c[..|c| - 1]);
      assert Complete(c) <==> Complete(c[..|c| - 1]) && c[|c| - 1].Some?;
    }
  }

  /** A score holds unchanged from its observation until that is stale, and at no other time; the prior observation,
      once too old or not before the current one, is as good as none. */
  lemma ScoreHoldsUntilStale(p: Policy, minVolume: Option<real>, o: Observation, previous: Option<Observation>,
                             asof: real, later: real, root: real)
    requires p.Valid() && ValidObservation(o) && (previous.Some? ==> ValidObservation(previous.value))
    requires Assess(p, minVolume, Some(o), previous, asof, root).score.Some?
    ensures var a, b := Assess(p, minVolume, Some(o), previous, asof, root), Assess(p, minVolume, Some(o), previous, later, root);
            (b.score.Some? <==> o.at <= later <= o.at + p.maxAge) && (b.score.Some? ==> b == a)
    ensures previous.Some? && !(0.0 < o.at - previous.value.at <= p.maxGap) ==>
              Assess(p, minVolume, Some(o), None, later, root) == Assess(p, minVolume, Some(o), previous, later, root)
  {
    assert QualityReasons(p, minVolume, o, asof) == [];
  }

  /** Every score an instrument gets lies in [-100, 100] with confidence between the policy's minimum and 1, which
      only all six components reach, and rests on an observation that is neither in the future nor stale. */
  lemma AssessmentInRange(p: Policy, minVolume: Option<real>, current: Option<Observation>,
                          previous: Option<Observation>, asof: real, root: real)
    requires p.Valid() && (current.Some? ==> ValidObservation(current.value))
    requires previous.Some? ==> ValidObservation(previous.value)
    requires current.Some? ==> IsRoot(p, current.value, CausalPrevious(p, current.value, previous), root)
    ensures var a := Assess(p, minVolume, current, previous, asof, root);
            (a.score.Some? ==> InRange(a.score.value) && p.minComponentWeight <= a.confidence <= 1.0
                               && (a.confidence == 1.0 <==>
                                     Complete(Components(p, current.value, CausalPrevious(p, current.value, previous), root)))
                               && current.value.at <= asof <= current.value.at + p.maxAge)
            && (a.score.None? ==> a.confidence == 0.0)
  {
    if current.Some? && QualityReasons(p, minVolume, current.value, asof) == [] {
      var prior := CausalPrevious(p, current.value, previous);
      var c := Components(p, current.value, prior, root);
      ComponentsStayInRange(p, current.value, prior, root);
      FullWeightIffComplete(c);
      ScoreIsBetweenComponents(p, minVolume, current.value, previous, asof, root, -100.0, 100.0);
    }
  }

  // ---- one target ----

  datatype Regime = RiskOn | Neutral | RiskOff | Unavailable

  datatype Source = Source(weight: real, score: Option<real>, confidence: real)

  predicate SourceOk(s: Source) {
    s.weight > 0.0 && (s.score.Some? ==> InRange(s.score.value) && 0.0 < s.confidence <= 1.0)
  }

  datatype Target = Target(regime: Regime, score: Option<real>, confidence: real, coverage: real,
                           disagreement: Option<real>, available: nat)

  function RegimeOf(p: Policy, score: real): Regime {
    if score >= p.riskOn then RiskOn else if score <= p.riskOff then RiskOff else Neutral
  }

  function Weigh(s: Source): Weighted
    requires s.score.Some?
  {
    Weighted(s.score.value, s.weight * s.confidence)
  }

  /** The scored sources, each weighing its binding's weight times its confidence. */
  function Scored(sources: seq<Source>): seq<Weighted> {
    if sources == [] then []
    else
      var rest, s := Scored(sources[..|sources| - 1]), sources[|sources| - 1];
      if s.score.Some? then rest + [Weigh(s)] else rest
  }

  function Configured(sources: seq<Source>): real {
    if sources == [] then 0.0 else Configured(sources[..|sources| - 1]) + sources[|sources| - 1].weight
  }

  predicate SourcesOk(sources: seq<Source>) { forall i :: 0 <= i < |sources| ==> SourceOk(sources[i]) }

  lemma {:induction false} ScoredInRange(sources: seq<Source>)
    requires SourcesOk(sources)
    ensures AllPositive(Scored(sources)) && (forall e :: e in Scored(sources) ==> InRange(e.value))
  {
    if sources != [] {
      ScoredInRange(sources[..|sources| - 1]);
    }
  }

  lemma {:induction false} CoveredWeight(sources: seq<Source>)
    requires SourcesOk(sources)
    ensures Total(Scored(sources)) <= Configured(sources)
    ensures 0.0 <= Configured(sources) && (sources != [] ==> 0.0 < Configured(sources))
  {
    if sources != [] {
      var rest, s := sources[..|sources| - 1], sources[|sources| - 1];
      CoveredWeight(rest);
      if s.score.Some? {
        var all := Scored(rest) + [Weigh(s)];
        assert all[..|all| - 1] == Scored(rest);
        assert Total(all) == Total(Scored(rest)) + Weigh(s).weight;
      }
    }
  }

  lemma {:induction false} AllPositiveKept(s: seq<Weighted>)
    requires AllPositive(s)
    ensures Positive(s) == s
  {
    if s != [] { AllPositiveKept(s[..|s| - 1]); }
  }

  lemma {:induction false} DeviationBounds(s: seq<Weighted>, x: real)
    requires AllPositive(s) && forall e :: e in s ==> InRange(e.value)
    ensures 0.0 <= Deviation(s, x)
    ensures Deviation(s, 0.0) <= 100.0 * Total(s)
  {
    if s != [] {
      var e := s[|s| - 1];
      DeviationBounds(s[..|s| - 1], x);
      TermBounds(e, x);
      TermBounds(e, 0.0);
    }
  }

  lemma TermBounds(e: Weighted, x: real)
    requires e.weight > 0.0 && InRange(e.value)
    ensures 0.0 <= Term(e, x) && Term(e, 0.0) <= 100.0 * e.weight
  {
    Scale(e.weight, Abs(e.value - x), 0.0);
    Scale(e.weight, 100.0, Abs(e.value - 0.0));
  }

  lemma DisagreementInUnit(s: seq<Weighted>, m: real)
    requires s != [] && AllPositive(s) && (forall e :: e in s ==> InRange(e.value)) && LeastMinimiser(s, m)
    ensures Total(s) > 0.0 && 0.0 <= Deviation(s, m) / Total(s) / 100.0 <= 1.0
  {
    TotalIsPositive(s);
    DeviationBounds(s, m);
    HundredthOfMean(Deviation(s, m), Total(s));
  }

  lemma HundredthOfMean(spread: real, total: real)
    requires total > 0.0 && 0.0 <= spread <= 100.0 * total
    ensures 0.0 <= spread / total / 100.0 <= 1.0
  {
    Ratio(spread, 100.0 * total);
    var mean := spread / total;
    assert mean * total == spread;
    if mean > 100.0 { Scale(total, mean, 100.0); ProductSign(mean - 100.0, total); }
  }

  /** One target's aggregate. The score is the least minimiser of the weighted deviation, and in exact
      arithmetic none of the three clamps changes anything and the no-weight fallback is never used. */
  method AggregateTarget(p: Policy, sources: seq<Source>) returns (t: Target)
    requires p.Valid() && sources != [] && SourcesOk(sources)
    ensures t.available == |Scored(sources)|
    ensures Scored(sources) == [] ==> t == Target(Unavailable, None, 0.0, 0.0, None, 0)
    ensures Scored(sources) != [] ==> Concluded(p, Scored(sources), Configured(sources), t)
  {
    var weighted, configured := Collect(sources);
    if weighted == [] { return Target(Unavailable, None, 0.0, 0.0, None, 0); }
    ScoredInRange(sources);
    CoveredWeight(sources);
    TotalIsPositive(weighted);
    t := AggregateScored(p, weighted, configured);
  }

  /** What is promised of a target with at least one scored source. */
  ghost predicate Concluded(p: Policy, s: seq<Weighted>, configured: real, t: Target) {
    t.score.Some? && t.disagreement.Some? && LeastMinimiser(s, t.score.value) && InRange(t.score.value)
    && Shares(Total(s), Deviation(s, t.score.value), configured, t)
    && RegimeIs(p, t.coverage, t.score.value, t.regime)
  }

  /** No regime below the coverage asked for; otherwise on from the upper threshold, off from the lower one down. */
  predicate RegimeIs(p: Policy, coverage: real, score: real, r: Regime) {
    (r == Unavailable <==> coverage < p.minCoverage)
    && (r == RiskOn <==> p.minCoverage <= coverage && p.riskOn <= score)
    && (r == RiskOff <==> p.minCoverage <= coverage && score <= p.riskOff)
  }

  /** The shares as plain quotients, all in [0, 1]. */
  predicate Shares(total: real, spread: real, configured: real, t: Target) {
    t.disagreement.Some? && 0.0 < total <= configured
    && t.disagreement.value == spread / total / 100.0 && 0.0 <= t.disagreement.value <= 1.0
    && t.coverage == total / configured && 0.0 < t.coverage <= 1.0
    && t.confidence == t.coverage * (1.0 - t.disagreement.value) && 0.0 <= t.confidence <= t.coverage
  }

  method AggregateScored(p: Policy, weighted: seq<Weighted>, configured: real) returns (t: Target)
    requires p.Valid() && weighted != [] && AllPositive(weighted) && (forall e :: e in weighted ==> InRange(e.value))
    requires 0.0 < Total(weighted) <= configured
    ensures t.available == |weighted|
    ensures Concluded(p, weighted, configured, t)
  {
    AllPositiveKept(weighted);
    var median := WeightedMedian(weighted);
    var score := median.value;
    assert InRange(score);
    var total, spread := Totals(weighted, score);
    DisagreementInUnit(weighted, score);
    t := Conclude(p, score, total, spread, configured, |weighted|);
  }

  method Collect(sources: seq<Source>) returns (weighted: seq<Weighted>, configured: real)
    ensures weighted == Scored(sources) && configured == Configured(sources)
  {
    weighted, configured := [], 0.0;
    for i := 0 to |sources|
      invariant weighted == Scored(sources[..i]) && configured == Configured(sources[..i])
    {
      assert sources[..i + 1][..i] == sources[..i];
      assert sources[..i + 1][i] == sources[i];
      configured := configured + sources[i].weight;
      if sources[i].score.Some? { weighted := weighted + [Weigh(sources[i])]; }
    }
    assert sources[..|sources|] == sources;
  }

  method Conclude(p: Policy, score: real, total: real, spread: real, configured: real, available: nat)
      returns (t: Target)
    requires p.Valid() && 0.0 < total <= configured && 0.0 <= spread / total / 100.0 <= 1.0
    ensures t.score == Some(score) && t.available == available && Shares(total, spread, configured, t)
    ensures RegimeIs(p, t.coverage, score, t.regime)
  {
    var disagreement := if total > 0.0 then spread / total / 100.0 else 1.0;
    var agreement := Max(0.0, 1.0 - Min(disagreement, 1.0));
    var coverage := total / configured;
    Ratio(total, configured);
    var product := coverage * agreement;
    var confidence := Min(Max(product, 0.0), 1.0);
    t := Target(if coverage >= p.minCoverage then RegimeOf(p, score) else Unavailable, Some(score), confidence,
                Min(Max(coverage, 0.0), 1.0), Some(Min(Max(disagreement, 0.0), 1.0)), available);
  }

  method Totals(s: seq<Weighted>, x: real) returns (total: real, spread: real)
    ensures total == Total(s) && spread == Deviation(s, x)
  {
    total, spread := 0.0, 0.0;
    for i := 0 to |s|
      invariant total == Total(s[..i]) && spread == Deviation(s[..i], x)
    {
      assert s[..i + 1][..i] == s[..i];
      total := total + s[i].weight;
      spread := spread + s[i].weight * Abs(s[i].value - x);
    }
    assert s[..|s|] == s;
  }

  // ---- a target as its observations age ----

  /** One bound instrument with its observations; root serves its price and open-interest component. */
  datatype Instrument = Instrument(weight: real, minVolume: Option<real>, current: Option<Observation>,
                                   previous: Option<Observation>, root: real)

  ghost predicate ValidInstrument(p: Policy, i: Instrument) {
    p.Valid() && i.weight > 0.0 && (i.current.Some? ==> ValidObservation(i.current.value))
    && (i.previous.Some? ==> ValidObservation(i.previous.value))
    && (i.current.Some? ==> IsRoot(p, i.current.value, CausalPrevious(p, i.current.value, i.previous), i.root))
  }

  ghost predicate ValidInstruments(p: Policy, items: seq<Instrument>) {
    forall k :: 0 <= k < |items| ==> ValidInstrument(p, items[k])
  }

  ghost function SourceAt(p: Policy, i: Instrument, asof: real): Source
    requires ValidInstrument(p, i)
  {
    var a := Assess(p, i.minVolume, i.current, i.previous, asof, i.root);
    Source(i.weight, a.score, a.confidence)
  }

  ghost function SourcesAt(p: Policy, items: seq<Instrument>, asof: real): (r: seq<Source>)
    requires ValidInstruments(p, items)
    ensures |r| == |items| && forall k :: 0 <= k < |items| ==> r[k] == SourceAt(p, items[k], asof)
  {
    if items == [] then [] else SourcesAt(p, items[..|items| - 1], asof) + [SourceAt(p, items[|items| - 1], asof)]
  }

  /** No instrument that is scored at one time has an observation past its age at a later one. */
  ghost predicate NoneExpires(p: Policy, items: seq<Instrument>, asof: real, later: real)
    requires ValidInstruments(p, items)
  {
    forall k :: 0 <= k < |items| && SourceAt(p, items[k], asof).score.Some? ==> later <= items[k].current.value.at + p.maxAge
  }

  ghost predicate SeenBy(items: seq<Instrument>, asof: real) {
    forall k :: 0 <= k < |items| && items[k].current.Some? ==> items[k].current.value.at <= asof
  }

  lemma SourcesAreOk(p: Policy, items: seq<Instrument>, asof: real)
    requires ValidInstruments(p, items)
    ensures SourcesOk(SourcesAt(p, items, asof))
  {
    forall k | 0 <= k < |items| ensures SourceOk(SourceAt(p, items[k], asof)) {
      var i := items[k];
      AssessmentInRange(p, i.minVolume, i.current, i.previous, asof, i.root);
    }
  }

  /** A source either stands as it was or has lost its score, which it does exactly when its observation expires. */
  lemma SourceFades(p: Policy, i: Instrument, asof: real, later: real)
    requires ValidInstrument(p, i) && asof <= later && (i.current.Some? ==> i.current.value.at <= asof)
    ensures var a, b := SourceAt(p, i, asof), SourceAt(p, i, later);
            (a == b || (a.score.Some? && b == Source(i.weight, None, 0.0)))
            && (a == b <==> (a.score.Some? ==> later <= i.current.value.at + p.maxAge))
  {
    AssessmentInRange(p, i.minVolume, i.current, i.previous, asof, i.root);
    AssessmentInRange(p, i.minVolume, i.current, i.previous, later, i.root);
    if SourceAt(p, i, asof).score.Some? {
      ScoreHoldsUntilStale(p, i.minVolume, i.current.value, i.previous, asof, later, i.root);
    }
  }

  /** Every source stands or has lost its score. */
  predicate Faded(before: seq<Source>, after: seq<Source>) {
    |before| == |after|
    && forall k :: 0 <= k < |before| ==> after[k] == before[k]
                                         || (before[k].score.Some? && after[k] == Source(before[k].weight, None, 0.0))
  }

  lemma {:induction false} FadedTotals(before: seq<Source>, after: seq<Source>)
    requires SourcesOk(before) && Faded(before, after)
    ensures Configured(after) == Configured(before)
    ensures before != after ==> |Scored(after)| < |Scored(before)| && Total(Scored(after)) < Total(Scored(before))
    decreases |before|
  {
    if before != [] {
      var n := |before| - 1;
      FadedTotals(before[..n], after[..n]);
      assert before == before[..n] + [before[n]] && after == after[..n] + [after[n]];
      OneMoreFades(before[..n], after[..n], before[n], after[n]);
    }
  }

  lemma OneMoreFades(x: seq<Source>, y: seq<Source>, s: Source, t: Source)
    requires SourceOk(s) && (t == s || (s.score.Some? && t == Source(s.weight, None, 0.0)))
    requires Configured(y) == Configured(x) && |Scored(y)| <= |Scored(x)| && Total(Scored(y)) <= Total(Scored(x))
    requires x != y ==> |Scored(y)| < |Scored(x)| && Total(Scored(y)) < Total(Scored(x))
    ensures Configured(y + [t]) == Configured(x + [s])
    ensures x != y || s != t ==>
              |Scored(y + [t])| < |Scored(x + [s])| && Total(Scored(y + [t])) < Total(Scored(x + [s]))
  {
    if s == t {
      SameGrowth(x, y, s);
    } else {
      ScoreAdds(x, s);
      SameWeights(x, y, s, t);
    }
  }

  lemma SameGrowth(x: seq<Source>, y: seq<Source>, s: Source)
    ensures Configured(y + [s]) - Configured(y) == Configured(x + [s]) - Configured(x)
    ensures |Scored(y + [s])| - |Scored(y)| == |Scored(x + [s])| - |Scored(x)|
    ensures Total(Scored(y + [s])) - Total(Scored(y)) == Total(Scored(x + [s])) - Total(Scored(x))
  {
    OneMoreSource(x, s);
    OneMoreSource(y, s);
  }

  lemma SameWeights(x: seq<Source>, y: seq<Source>, s: Source, t: Source)
    requires t == Source(s.weight, None, 0.0)
    ensures Configured(y + [t]) - Configured(y) == Configured(x + [s]) - Configured(x)
    ensures |Scored(y + [t])| == |Scored(y)| && Total(Scored(y + [t])) == Total(Scored(y))
  {
    OneMoreSource(x, s);
    OneMoreSource(y, t);
  }

  lemma ScoreAdds(x: seq<Source>, s: Source)
    requires SourceOk(s) && s.score.Some?
    ensures |Scored(x + [s])| == |Scored(x)| + 1 && Total(Scored(x + [s])) > Total(Scored(x))
  {
    OneMoreSource(x, s);
    ProductSign(s.weight, s.confidence);
  }

  /** With no new observations a target only fades: its scored sources and their weight never grow, so that a target
      without enough coverage stays without it, and its sources stay exactly what they were until one of those scored
      expires, from when on they are fewer and weigh less. */
  lemma TargetFades(p: Policy, items: seq<Instrument>, asof: real, later: real)
    requires ValidInstruments(p, items) && asof <= later && SeenBy(items, asof)
    ensures var before, after := SourcesAt(p, items, asof), SourcesAt(p, items, later);
            Configured(after) == Configured(before)
            && if NoneExpires(p, items, asof, later) then after == before
               else |Scored(after)| < |Scored(before)| && Total(Scored(after)) < Total(Scored(before))
  {
    var before, after := SourcesAt(p, items, asof), SourcesAt(p, items, later);
    SourcesAreOk(p, items, asof);
    forall k | 0 <= k < |items|
      ensures after[k] == before[k] || (before[k].score.Some? && after[k] == Source(before[k].weight, None, 0.0))
      ensures after[k] == before[k]
              <==> (SourceAt(p, items[k], asof).score.Some? ==> later <= items[k].current.value.at + p.maxAge)
    {
      SourceFades(p, items[k], asof, later);
    }
    FadedTotals(before, after);
  }

  lemma OneMoreSource(sources: seq<Source>, s: Source)
    ensures Configured(sources + [s]) == Configured(sources) + s.weight
    ensures |Scored(sources + [s])| == |Scored(sources)| + if s.score.Some? then 1 else 0
    ensures Total(Scored(sources + [s])) == Total(Scored(sources)) + if s.score.Some? then s.weight * s.confidence else 0.0
  {
    assert (sources + [s])[..|sources + [s]| - 1] == sources;
    if s.score.Some? {
      var all := Scored(sources) + [Weigh(s)];
      assert all[..|all| - 1] == Scored(sources);
    }
  }
}
