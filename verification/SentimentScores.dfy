/** What an instrument's sentiment score says about its observations (kernel/cross_asset_sentiment.py): when there is
    one, what each component measures, and how they are weighed. */
module SentimentScores {
  import opened Numbers
  import opened Texts
  import opened Sentiment

  // ---- the components ----

  /** A score proportional to its value up to full scale, and a hundred in size from there on. */
  predicate Scales(score: real, value: real, fullScale: real) {
    (-fullScale <= value <= fullScale ==> score * fullScale == 100.0 * value)
    && (value >= fullScale ==> score == 100.0) && (value <= -fullScale ==> score == -100.0)
  }

  lemma ScaledScales(value: real, fullScale: real)
    requires fullScale > 0.0
    ensures Scales(ScaledScore(Some(value), fullScale).value, value, fullScale)
  {
    var size, q := Abs(value), value / fullScale;
    assert q * fullScale == value;
    RatioGrows(size, size, fullScale);
    Ratio(size, fullScale);
    assert q == if value < 0.0 then -(size / fullScale) else size / fullScale;
    if size < fullScale { assert (q * 100.0) * fullScale == 100.0 * value; }
  }

  /** The share of liquidated shorts less that of longs, in hundredths; none when nothing was liquidated. */
  predicate Balances(score: real, longs: real, shorts: real) {
    score * (longs + shorts) == 100.0 * (shorts - longs) && (longs + shorts == 0.0 ==> score == 0.0)
  }

  lemma LiquidationBalances(longs: real, shorts: real)
    requires longs >= 0.0 && shorts >= 0.0
    ensures Balances(LiquidationScore(longs, shorts), longs, shorts)
  {
    if longs + shorts > 0.0 {
      var q := (shorts - longs) / (longs + shorts);
      assert q * (longs + shorts) == shorts - longs;
      assert (q * 100.0) * (longs + shorts) == 100.0 * (shorts - longs);
    }
  }

  /** A funding rate's score up to the moderate rate, falling from there to the extreme one, and against it beyond. */
  predicate Funds(score: real, rate: real, moderate: real, extreme: real) {
    (0.0 <= rate <= moderate ==> score * moderate == 100.0 * rate)
    && (moderate <= rate < extreme ==> score * (extreme - moderate) == 100.0 * (extreme - rate))
    && (rate >= extreme ==> score == -50.0)
  }

  lemma FundingFunds(rate: real, moderate: real, extreme: real)
    requires 0.0 < moderate < extreme
    ensures Funds(FundingScore(rate, moderate, extreme), rate, moderate, extreme)
  {
    if 0.0 <= rate <= moderate {
      var q := rate / moderate;
      assert q * moderate == rate && 1.0 * rate == rate;
      assert (q * 100.0) * moderate == 100.0 * rate;
    } else if moderate < rate < extreme {
      var width, q := extreme - moderate, (rate - moderate) / (extreme - moderate);
      assert q * width == rate - moderate;
      assert ((1.0 - q) * 100.0) * width == 100.0 * (width - q * width);
    }
    if rate == moderate { assert FundingScore(rate, moderate, extreme) == 100.0; }
  }

  /** The size of a price and open-interest score for each pair of directions. */
  function Full(price: real, oi: real): real { if oi > 0.0 then 100.0 else if price > 0.0 then 40.0 else 60.0 }

  /** Zero when a move is negligible; otherwise with the price's sign, and its square in proportion to the strength. */
  predicate Combines(score: real, price: real, oi: real, strength: real) {
    if Abs(price) <= NEGLIGIBLE || Abs(oi) <= NEGLIGIBLE then score == 0.0
    else score * score == Full(price, oi) * Full(price, oi) * strength && (price > 0.0 ==> score >= 0.0)
         && (price < 0.0 ==> score <= 0.0)
  }

  lemma SquareOfMultiple(k: real, root: real)
    ensures (k * root) * (k * root) == k * k * (root * root)
    ensures (-k * root) * (-k * root) == k * k * (root * root)
  {
  }

  lemma PriceOiCombines(price: real, oi: real, root: real, strength: real)
    requires SquaresTo(root, strength)
    ensures Combines(PriceOiScore(Some(price), Some(oi), root).value, price, oi, strength)
  {
    SquareOfMultiple(Full(price, oi), root);
  }

  /** Each move counts as the part of its full scale it reaches, up to all of it, and the two are multiplied. */
  lemma StrengthMultiplies(price: real, oi: real, priceScale: real, oiScale: real)
    requires priceScale > 0.0 && oiScale > 0.0
    ensures var strength := Strength(price, oi, priceScale, oiScale);
            strength * (priceScale * oiScale) == Min(Abs(price), priceScale) * Min(Abs(oi), oiScale)
  {
    Reaches(Abs(price), priceScale);
    Reaches(Abs(oi), oiScale);
    var a, b := Min(Abs(price) / priceScale, 1.0), Min(Abs(oi) / oiScale, 1.0);
    FourFactors(a, b, priceScale, oiScale);
  }

  lemma Reaches(size: real, scale: real)
    requires size >= 0.0 && scale > 0.0
    ensures Min(size / scale, 1.0) * scale == Min(size, scale)
  {
    RatioGrows(size, size, scale);
    var q := size / scale;
    assert q * scale == size;
    if q >= 1.0 { assert 1.0 * scale == scale; }
  }

  lemma FourFactors(a: real, b: real, c: real, d: real)
    ensures a * b * (c * d) == (a * c) * (b * d)
  {
    assert a * b * (c * d) == a * (b * c) * d;
    assert a * (b * c) * d == (a * c) * (b * d);
  }

  /** A known component with this property, or an unknown one. */
  predicate Known(c: Option<real>, known: bool) { c.Some? <==> known }

  /** An observation to compare with: earlier than the current one, by no more than the allowed gap. */
  predicate Comparable(p: Policy, o: Observation, previous: Option<Observation>) {
    previous.Some? && previous.value.at < o.at && o.at - previous.value.at <= p.maxGap
  }

  predicate OiKnown(p: Policy, o: Observation, previous: Option<Observation>) {
    Comparable(p, o, previous) && o.openInterest.Some? && previous.value.openInterest.Some?
    && previous.value.openInterest.value > 0.0
  }

  /** Which components an observation has, in the order price trend, price and open interest, funding, signed flow,
      liquidation and basis. */
  predicate HasComponents(p: Policy, o: Observation, previous: Option<Observation>, c: seq<Option<real>>) {
    |c| == 6
    && Known(c[0], Comparable(p, o, previous)) && Known(c[1], OiKnown(p, o, previous))
    && Known(c[2], o.funding.Some?) && Known(c[3], o.imbalance.Some?) && Known(c[4], o.liquidations.Some?)
    && Known(c[5], o.oracle.Some?)
  }

  /** What each of them measures. */
  predicate Measures(p: Policy, o: Observation, previous: Option<Observation>, c: seq<Option<real>>)
    requires p.Valid() && ValidObservation(o) && (previous.Some? ==> ValidObservation(previous.value))
    requires HasComponents(p, o, previous, c)
  {
    (c[0].Some? ==> Scales(c[0].value, Change(o.mark, previous.value.mark), p.priceScale))
    && (c[1].Some? ==>
          var price := Change(o.mark, previous.value.mark);
          var oi := Change(o.openInterest.value, previous.value.openInterest.value);
          Combines(c[1].value, price, oi, Strength(price, oi, p.priceScale, p.oiScale)))
    && (c[2].Some? ==> Funds(c[2].value, o.funding.value, p.moderateFunding, p.extremeFunding))
    && (c[3].Some? ==> c[3].value == 100.0 * o.imbalance.value)
    && (c[4].Some? ==> Balances(c[4].value, o.liquidations.value.0, o.liquidations.value.1))
    && (c[5].Some? ==> Scales(c[5].value, Change(o.mark, o.oracle.value), p.basisScale))
  }

  lemma ComponentsMeasure(p: Policy, o: Observation, previous: Option<Observation>, root: real)
    requires p.Valid() && ValidObservation(o) && (previous.Some? ==> ValidObservation(previous.value))
    requires IsRoot(p, o, CausalPrevious(p, o, previous), root)
    ensures var c := Components(p, o, CausalPrevious(p, o, previous), root);
            HasComponents(p, o, previous, c) && Measures(p, o, previous, c)
  {
    if Comparable(p, o, previous) {
      ScaledScales(Change(o.mark, previous.value.mark), p.priceScale);
      if OiKnown(p, o, previous) {
        var price := Change(o.mark, previous.value.mark);
        var oi := Change(o.openInterest.value, previous.value.openInterest.value);
        PriceOiCombines(price, oi, root, Strength(price, oi, p.priceScale, p.oiScale));
      }
    }
    if o.funding.Some? { FundingFunds(o.funding.value, p.moderateFunding, p.extremeFunding); }
    if o.liquidations.Some? { LiquidationBalances(o.liquidations.value.0, o.liquidations.value.1); }
    if o.oracle.Some? { ScaledScales(Change(o.mark, o.oracle.value), p.basisScale); }
  }

  // ---- the weights ----

  function Part(c: Option<real>, weight: real): real { if c.Some? then weight else 0.0 }

  function Share(c: Option<real>, weight: real): real { if c.Some? then weight * c.value else 0.0 }

  /** Twenty, twenty-five, fifteen, twenty, ten and ten percent, of those that are there. */
  function KnownWeight(c: seq<Option<real>>): real
    requires |c| == 6
  {
    Part(c[0], 0.20) + Part(c[1], 0.25) + Part(c[2], 0.15) + Part(c[3], 0.20) + Part(c[4], 0.10) + Part(c[5], 0.10)
  }

  function KnownSum(c: seq<Option<real>>): real
    requires |c| == 6
  {
    Share(c[0], 0.20) + Share(c[1], 0.25) + Share(c[2], 0.15) + Share(c[3], 0.20) + Share(c[4], 0.10)
    + Share(c[5], 0.10)
  }

  lemma OneMoreComponent(c: seq<Option<real>>, n: nat)
    requires |c| == 6 && n < 6
    ensures AvailableWeight(c[..n + 1], WEIGHTS) == AvailableWeight(c[..n], WEIGHTS) + Part(c[n], WEIGHTS[n])
    ensures WeightedSum(c[..n + 1], WEIGHTS) == WeightedSum(c[..n], WEIGHTS) + Share(c[n], WEIGHTS[n])
  {
    assert c[..n + 1][..n] == c[..n];
  }

  lemma WeighsComponents(c: seq<Option<real>>)
    requires |c| == 6
    ensures AvailableWeight(c, WEIGHTS) == KnownWeight(c)
    ensures WeightedSum(c, WEIGHTS) == KnownSum(c)
  {
    OneMoreComponent(c, 0);
    OneMoreComponent(c, 1);
    OneMoreComponent(c, 2);
    OneMoreComponent(c, 3);
    OneMoreComponent(c, 4);
    OneMoreComponent(c, 5);
    assert c[..6] == c && c[..0] == [];
  }

  // ---- the assessment ----

  /** The observation may be used: neither future nor stale, of an active and liquid instrument, near its oracle price
      and with a narrow quote, as far as these are known. */
  predicate Sound(p: Policy, minVolume: Option<real>, o: Observation, asof: real)
    requires ValidObservation(o)
  {
    o.at <= asof <= o.at + p.maxAge && o.active
    && (minVolume.Some? ==> o.volume.Some? && o.volume.value >= minVolume.value)
    && (o.oracle.Some? ==> -p.maxBasis <= o.mark / o.oracle.value - 1.0 <= p.maxBasis)
    && (o.quote.Some? ==>
          (o.quote.value.1 - o.quote.value.0) / ((o.quote.value.0 + o.quote.value.1) / 2.0) * 10000.0 <= p.maxSpreadBps)
  }

  lemma SoundIff(p: Policy, minVolume: Option<real>, o: Observation, asof: real)
    requires ValidObservation(o)
    ensures QualityReasons(p, minVolume, o, asof) == [] <==> Sound(p, minVolume, o, asof)
  {
  }

  /** Scored exactly when sound and with enough known components, with their weight as its confidence and their weighted
      mean as its score. */
  predicate Explains(p: Policy, minVolume: Option<real>, o: Observation, asof: real, c: seq<Option<real>>, a: Assessment)
    requires ValidObservation(o) && |c| == 6
  {
    (a.score.Some? <==> Sound(p, minVolume, o, asof) && KnownWeight(c) >= p.minComponentWeight)
    && (a.score.Some? ==> a.confidence == KnownWeight(c) && a.score.value * a.confidence == KnownSum(c))
  }

  lemma MeanTimesWeight(c: seq<Option<real>>)
    requires |c| == 6
    ensures Mean(c).Some? ==> Mean(c).value * KnownWeight(c) == KnownSum(c)
    ensures Mean(c).Some? <==> KnownWeight(c) > 0.0
  {
    WeighsComponents(c);
  }

  lemma VerdictExplains(p: Policy, minVolume: Option<real>, o: Observation, asof: real, c: seq<Option<real>>, a: Assessment)
    requires p.Valid() && ValidObservation(o) && |c| == 6
    requires a == if !Sound(p, minVolume, o, asof) then Assessment(None, 0.0, a.reasons)
                  else if KnownWeight(c) < p.minComponentWeight then Assessment(None, 0.0, [])
                  else Assessment(Mean(c), KnownWeight(c), [])
    ensures Explains(p, minVolume, o, asof, c, a)
  {
    MeanTimesWeight(c);
  }

  lemma AssessVerdict(p: Policy, minVolume: Option<real>, o: Observation, previous: Option<Observation>, asof: real,
                      root: real)
    requires p.Valid() && ValidObservation(o) && (previous.Some? ==> ValidObservation(previous.value))
    ensures var c := Components(p, o, CausalPrevious(p, o, previous), root);
            var a := Assess(p, minVolume, Some(o), previous, asof, root);
            a == if !Sound(p, minVolume, o, asof) then Assessment(None, 0.0, a.reasons)
                 else if KnownWeight(c) < p.minComponentWeight then Assessment(None, 0.0, [])
                 else Assessment(Mean(c), KnownWeight(c), [])
  {
    SoundIff(p, minVolume, o, asof);
    WeighsComponents(Components(p, o, CausalPrevious(p, o, previous), root));
  }

  /** An instrument is scored exactly on a sound observation with enough known components; its confidence is then their
      weight, and its score their weighted mean. */
  lemma ScoredIff(p: Policy, minVolume: Option<real>, o: Observation, previous: Option<Observation>, asof: real,
                  root: real)
    requires p.Valid() && ValidObservation(o) && (previous.Some? ==> ValidObservation(previous.value))
    requires IsRoot(p, o, CausalPrevious(p, o, previous), root)
    ensures exists c: seq<Option<real>> ::
              HasComponents(p, o, previous, c) && Measures(p, o, previous, c)
              && Explains(p, minVolume, o, asof, c, Assess(p, minVolume, Some(o), previous, asof, root))
  {
    ComponentsMeasure(p, o, previous, root);
    AssessVerdict(p, minVolume, o, previous, asof, root);
    VerdictExplains(p, minVolume, o, asof, Components(p, o, CausalPrevious(p, o, previous), root),
                    Assess(p, minVolume, Some(o), previous, asof, root));
  }
}
