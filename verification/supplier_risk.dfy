/** Scoring of one supplier (`calculateRiskPercentage` in src/template.ts):
    validation, normalisation of cost, rating and review count to risk
    contributions in [0,100], the 0.5/0.3/0.2 weighted sum, the complementary
    score, two-decimal rounding and the three-way analysis label. */
module SupplierRisk {
  import opened Wrappers
  import opened Rounding

  /** One supplier record as the handlers hold it. Numbers are exact reals. */
  datatype Supplier = Supplier(name: string, cost: real, ratings: real, reviews: real)

  /** The label that opens the analysis text. */
  datatype RiskBand = LowRisk | MediumRisk | HighRisk {
    /** Position in the order low < medium < high. */
    function Rank(): nat {
      match this
      case LowRisk => 0
      case MediumRisk => 1
      case HighRisk => 2
    }

    function Text(): string {
      match this
      case LowRisk => "Low risk"
      case MediumRisk => "Medium risk"
      case HighRisk => "High risk"
    }
  }

  /** The two post-hoc multipliers that an adjusted analysis mentions. */
  datatype Factors = Factors(weather: real, sentiment: real)

  /** The analysis text, kept as its label prefix plus, once the result has
      been adjusted, the factors the appended sentence reports. The tail that
      repeats the cost, rating and review count is rebuilt from the record's
      own fields and is not kept separately. */
  datatype Note = Note(band: RiskBand, adjustedBy: Option<Factors>)

  /** `SupplierAnalysisResult`; `cost` stays a number instead of its
      locale-formatted string. */
  datatype Analysis = Analysis(
    supplier: string,
    cost: real,
    ratings: real,
    reviews: real,
    riskPercentage: real,
    score: real,
    analysis: Note)

  /** The two errors `calculateRiskPercentage` throws. */
  datatype ScoreError = InvalidRating(rating: real) | InvalidReviews(reviews: real)

  const CostWeight: real := 0.5
  const RatingWeight: real := 0.3
  const ReviewWeight: real := 0.2
  const MinCost: real := 40000.0
  const MaxCost: real := 60000.0

  /** The checks that precede the arithmetic; cost is never checked. */
  predicate ValidSupplier(s: Supplier) {
    0.0 <= s.ratings <= 10.0 && s.reviews >= 0.0
  }

  function Clamp(lo: real, hi: real, x: real): real {
    if x < lo then lo else if x > hi then hi else x
  }

  /** Cost contribution: linear between MinCost and MaxCost, clamped. */
  function CostRisk(cost: real): (r: real)
    ensures 0.0 <= r <= 100.0
    ensures cost <= MinCost ==> r == 0.0
    ensures cost >= MaxCost ==> r == 100.0
    ensures MinCost < cost < MaxCost ==> r == (cost - MinCost) / 200.0
  {
    Clamp(0.0, 100.0, ((cost - MinCost) / (MaxCost - MinCost)) * 100.0)
  }

  /** Rating contribution: the inverted ten-point scale, so a valid rating
      lands in [0,100], with a perfect rating carrying no risk and a zero
      rating full risk; ten times the rating and the contribution make 100. */
  function RatingRisk(ratings: real): (r: real)
    ensures 0.0 <= ratings <= 10.0 ==> 0.0 <= r <= 100.0
    ensures r == 0.0 <==> ratings == 10.0
    ensures r == 100.0 <==> ratings == 0.0
    ensures 10.0 * ratings + r == 100.0
  {
    (10.0 - ratings) * 10.0
  }

  /** Review contribution, with the source's explicit zero-reviews branch. */
  function ReviewRisk(reviews: real): (r: real)
    requires reviews >= 0.0
    ensures 0.0 < r <= 100.0
    ensures r == 100.0 / (reviews + 1.0)
  {
    if reviews == 0.0 then 100.0
    else Clamp(0.0, 100.0, (1.0 / (reviews + 1.0)) * 100.0)
  }

  /** The weighted combination of the three contributions. The weights are
      positive and sum to one, so the result lies between the smallest and
      the largest contribution. */
  function WeightedRisk(costRisk: real, ratingRisk: real, reviewRisk: real): (r: real)
    ensures r <= costRisk || r <= ratingRisk || r <= reviewRisk
    ensures r >= costRisk || r >= ratingRisk || r >= reviewRisk
    ensures costRisk == ratingRisk == reviewRisk ==> r == costRisk
  {
    CostWeight * costRisk + RatingWeight * ratingRisk + ReviewWeight * reviewRisk
  }

  /** The analysis label picked from the (unrounded) risk. */
  function BandOf(risk: real): (b: RiskBand)
    ensures b == LowRisk <==> risk < 30.0
    ensures b == MediumRisk <==> 30.0 <= risk < 60.0
    ensures b == HighRisk <==> risk >= 60.0
  {
    if risk < 30.0 then LowRisk
    else if risk < 60.0 then MediumRisk
    else HighRisk
  }

  /** Reference definition of the unrounded risk of a valid supplier, written
      piecewise and without the zero-reviews special case. */
  ghost function ExpectedRisk(s: Supplier): real
    requires ValidSupplier(s)
  {
    var cost :=
      if s.cost <= MinCost then 0.0
      else if s.cost >= MaxCost then 100.0
      else (s.cost - MinCost) / 200.0;
    0.5 * cost + 3.0 * (10.0 - s.ratings) + 20.0 / (s.reviews + 1.0)
  }

  /** `calculateRiskPercentage`: a rating outside [0,10] is refused first,
      then a negative review count; otherwise the record carries the supplier's
      fields, the rounded risk, the rounded complementary score, and the label
      picked from the risk before rounding. */
  function CalculateRisk(s: Supplier): (r: Result<Analysis, ScoreError>)
    ensures r.Failure? <==> !ValidSupplier(s)
    ensures (s.ratings < 0.0 || s.ratings > 10.0) ==> r == Failure(InvalidRating(s.ratings))
    ensures 0.0 <= s.ratings <= 10.0 && s.reviews < 0.0 ==> r == Failure(InvalidReviews(s.reviews))
    ensures r.Success? ==>
      && r.value.supplier == s.name
      && r.value.cost == s.cost
      && r.value.ratings == s.ratings
      && r.value.reviews == s.reviews
      && r.value.riskPercentage == Round2(ExpectedRisk(s))
      && r.value.score == Round2(100.0 - ExpectedRisk(s))
      && r.value.analysis == Note(BandOf(ExpectedRisk(s)), None)
  {
    if s.ratings < 0.0 || s.ratings > 10.0 then
      Failure(InvalidRating(s.ratings))
    else if s.reviews < 0.0 then
      Failure(InvalidReviews(s.reviews))
    else
      var weighted := WeightedRisk(CostRisk(s.cost), RatingRisk(s.ratings), ReviewRisk(s.reviews));
      assert weighted == ExpectedRisk(s) by { WeightedIsExpected(s); }
      var overall := 100.0 - weighted;
      Success(Analysis(
        s.name, s.cost, s.ratings, s.reviews,
        Round2(weighted), Round2(overall),
        Note(BandOf(weighted), None)))
  }

  /** The source's clamps and zero-reviews branch compute the reference risk. */
  lemma WeightedIsExpected(s: Supplier)
    requires ValidSupplier(s)
    ensures WeightedRisk(CostRisk(s.cost), RatingRisk(s.ratings), ReviewRisk(s.reviews)) == ExpectedRisk(s)
  {
    var v := ReviewRisk(s.reviews);
    var d := s.reviews + 1.0;
    assert v == 100.0 / d;
    assert ReviewWeight * v == 20.0 / d;
  }

  /** Each contribution lies in [0,100] and the weights sum to one, so the
      weighted risk lies in [0,100]; equal contributions give that value back. */
  lemma WeightedRiskBounds(c: real, g: real, v: real)
    requires 0.0 <= c <= 100.0 && 0.0 <= g <= 100.0 && 0.0 <= v <= 100.0
    ensures 0.0 <= WeightedRisk(c, g, v) <= 100.0
    ensures c == g == v ==> WeightedRisk(c, g, v) == c
  {
  }

  /** The rating contribution of a valid rating lies in [0,100], with rating
      10 giving no risk, rating 0 full risk, and a better rating less risk. */
  lemma RatingRiskRange(ratings: real, other: real)
    requires 0.0 <= ratings <= 10.0
    ensures 0.0 <= RatingRisk(ratings) <= 100.0
    ensures RatingRisk(10.0) == 0.0 && RatingRisk(0.0) == 100.0
    ensures ratings <= other ==> RatingRisk(other) <= RatingRisk(ratings)
  {
  }

  /** A scored supplier's risk and score are in [0,100], whole hundredths,
      and within half a hundredth of the exact weighted risk. */
  lemma ScoredRiskInRange(s: Supplier)
    requires ValidSupplier(s)
    ensures CalculateRisk(s).Success?
    ensures 0.0 <= CalculateRisk(s).value.riskPercentage <= 100.0
    ensures 0.0 <= CalculateRisk(s).value.score <= 100.0
    ensures IsCents(CalculateRisk(s).value.riskPercentage)
    ensures IsCents(CalculateRisk(s).value.score)
    ensures ExpectedRisk(s) - 0.005 < CalculateRisk(s).value.riskPercentage <= ExpectedRisk(s) + 0.005
  {
    var e := ExpectedRisk(s);
    var a := CalculateRisk(s).value;
    assert a.riskPercentage == Round2(e) && a.score == Round2(100.0 - e);
    WeightedIsExpected(s);
    WeightedRiskBounds(CostRisk(s.cost), RatingRisk(s.ratings), ReviewRisk(s.reviews));
    assert 0.0 <= e <= 100.0;
    Round2InPercentRange(e);
    Round2InPercentRange(100.0 - e);
  }

  /** The score complements the risk: the two sum to 100, except when the
      exact risk sits on a half-hundredth, where both round up and the pair
      sums to 100.01. */
  lemma ScoreComplementsRisk(s: Supplier)
    requires ValidSupplier(s)
    ensures !IsHalfCent(ExpectedRisk(s)) ==>
      CalculateRisk(s).value.riskPercentage + CalculateRisk(s).value.score == 100.0
    ensures IsHalfCent(ExpectedRisk(s)) ==>
      CalculateRisk(s).value.riskPercentage + CalculateRisk(s).value.score == 100.01
  {
    Round2Complement(ExpectedRisk(s));
  }

  /** A higher risk never gets a lower label. */
  lemma BandMonotone(x: real, y: real)
    requires x <= y
    ensures BandOf(x).Rank() <= BandOf(y).Rank()
  {
  }

  /** The label is picked before rounding, so a supplier whose displayed risk
      is 30.00 can still be labelled "Low risk": cost 43999, rating 10 and no
      reviews give the exact risk 29.9975. */
  lemma LabelUsesUnroundedRisk()
    ensures CalculateRisk(Supplier("Edge", 43999.0, 10.0, 0.0)).value.riskPercentage == 30.0
    ensures CalculateRisk(Supplier("Edge", 43999.0, 10.0, 0.0)).value.analysis.band == LowRisk
  {
    var s := Supplier("Edge", 43999.0, 10.0, 0.0);
    assert ExpectedRisk(s) == 29.9975;
    assert (100.0 * 29.9975 + 0.5).Floor == 3000;
  }

  /** At a half-hundredth tie both values round up: cost 40002, rating 10
      and one review give the exact risk 10.005, shown as 10.01 with a score
      of 90, summing to 100.01. */
  lemma HalfCentTieExample()
    ensures CalculateRisk(Supplier("Tie", 40002.0, 10.0, 1.0)).value.riskPercentage == 10.01
    ensures CalculateRisk(Supplier("Tie", 40002.0, 10.0, 1.0)).value.score == 90.0
  {
    var s := Supplier("Tie", 40002.0, 10.0, 1.0);
    assert ExpectedRisk(s) == 10.005;
    assert (100.0 * 10.005 + 0.5).Floor == 1001;
    assert (100.0 * (100.0 - 10.005) + 0.5).Floor == 9000;
  }
}
