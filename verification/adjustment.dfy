/** The post-hoc adjustment of the detailed supplier analysis: a weather
    factor (the reported temperature over 100) and a sentiment factor
    (1 + average article sentiment / 10) multiply every record's risk, which
    is rounded again to two decimals. Only `riskPercentage` and the analysis
    text change; the label prefix is not recomputed and nothing is clamped. */
module Adjustment {
  import opened Wrappers
  import opened Rounding
  import opened SupplierRisk
  import opened Selection

  /** The weather factor derived from the reported temperature: a hundredth
      of it, so 100 degrees is neutral and the factor has the temperature's
      sign. */
  function WeatherRiskFactor(temperature: real): (w: real)
    ensures 100.0 * w == temperature
    ensures w == 1.0 <==> temperature == 100.0
    ensures w >= 0.0 <==> temperature >= 0.0
  {
    temperature / 100.0
  }

  /** Left-to-right sum of the scores, starting from zero. Its grouping
      does not matter: it equals the sum taken from the right. */
  function Sum(scores: seq<real>): (r: real)
    ensures r == RightSum(scores)
  {
    if |scores| == 0 then 0.0
    else
      var init := scores[..|scores| - 1];
      var last := scores[|scores| - 1];
      assert init + [last] == scores;
      RightSumSnoc(init, last);
      Sum(init) + last
  }

  /** Reference definition: the first score plus the sum of the rest. */
  function RightSum(scores: seq<real>): real {
    if |scores| == 0 then 0.0 else scores[0] + RightSum(scores[1..])
  }

  lemma {:induction false} RightSumSnoc(s: seq<real>, x: real)
    ensures RightSum(s + [x]) == RightSum(s) + x
  {
    if |s| > 0 {
      assert (s + [x])[1..] == s[1..] + [x];
      RightSumSnoc(s[1..], x);
    } else {
      assert (s + [x])[1..] == [];
    }
  }

  /** The left-to-right sum splits over any concatenation, so it agrees with
      summing from the right or in any grouping. */
  lemma {:induction false} SumConcat(a: seq<real>, b: seq<real>)
    ensures Sum(a + b) == Sum(a) + Sum(b)
    decreases |b|
  {
    if |b| > 0 {
      var ab := a + b;
      var bInit := b[..|b| - 1];
      assert ab[..|ab| - 1] == a + bInit;
      assert ab[|ab| - 1] == b[|b| - 1];
      SumConcat(a, bInit);
    } else {
      assert a + b == a;
    }
  }

  /** The mean sentiment score, or 0 when no article was scored. */
  function AverageSentiment(scores: seq<real>): (avg: real)
    ensures |scores| == 0 ==> avg == 0.0
    ensures |scores| > 0 ==> avg * (|scores| as real) == Sum(scores)
  {
    if |scores| > 0 then Sum(scores) / (|scores| as real) else 0.0
  }

  /** The sentiment factor: neutral news leaves risk alone, positive news
      raises it, and an average below -10 makes the factor negative. */
  function SentimentRiskFactor(avg: real): (f: real)
    ensures f == 1.0 <==> avg == 0.0
    ensures f > 1.0 <==> avg > 0.0
    ensures f < 0.0 <==> avg < -10.0
  {
    1.0 + avg / 10.0
  }

  /** If every score lies in [lo, hi], the sum lies in [n*lo, n*hi]. */
  lemma {:induction false} SumBounds(scores: seq<real>, lo: real, hi: real)
    requires forall i :: 0 <= i < |scores| ==> lo <= scores[i] <= hi
    ensures (|scores| as real) * lo <= Sum(scores) <= (|scores| as real) * hi
  {
    if |scores| > 0 {
      var init := scores[..|scores| - 1];
      var last := scores[|scores| - 1];
      var m := |init| as real;
      assert forall i :: 0 <= i < |init| ==> init[i] == scores[i];
      SumBounds(init, lo, hi);
      assert Sum(scores) == Sum(init) + last;
      assert lo <= last <= hi;
      assert |scores| as real == m + 1.0;
      SuccScale(m, lo);
      SuccScale(m, hi);
      assert (m + 1.0) * lo <= Sum(init) + last;
      assert Sum(init) + last <= (m + 1.0) * hi;
    }
  }

  lemma SuccScale(m: real, x: real)
    ensures (m + 1.0) * x == m * x + x
  {
  }

  /** The average lies between the smallest and the largest score. */
  lemma AverageBounded(scores: seq<real>, lo: real, hi: real)
    requires |scores| > 0
    requires forall i :: 0 <= i < |scores| ==> lo <= scores[i] <= hi
    ensures lo <= AverageSentiment(scores) <= hi
  {
    SumBounds(scores, lo, hi);
    var n := |scores| as real;
    var avg := AverageSentiment(scores);
    assert avg * n == Sum(scores);
    assert n * lo <= Sum(scores) <= n * hi;
    assert lo * n <= avg * n <= hi * n;
    ScaleCancel(lo, avg, n);
    ScaleCancel(avg, hi, n);
  }

  lemma ScaleCancel(x: real, y: real, n: real)
    requires n > 0.0 && x * n <= y * n
    ensures x <= y
  {
    assert (y - x) * n >= 0.0;
  }

  lemma ProductOrder(p: real, q: real, w: real, f: real)
    requires p <= q && w * f >= 0.0
    ensures p * w * f <= q * w * f
  {
    assert p * w * f == p * (w * f);
    assert q * w * f == q * (w * f);
    ScaleMonotone(p, q, w * f);
  }

  lemma ScaleMonotone(x: real, y: real, c: real)
    requires x <= y && c >= 0.0
    ensures x * c <= y * c
  {
    assert (y - x) * c >= 0.0;
  }

  /** The adjusted risk: the product rounded again to two decimals. */
  function AdjustedRisk(risk: real, weather: real, sentiment: real): (r: real)
    ensures IsCents(r)
    ensures risk * weather * sentiment - 0.005 < r <= risk * weather * sentiment + 0.005
  {
    Round2(risk * weather * sentiment)
  }

  /** One record of the adjustment map: the risk is multiplied by both
      factors and rounded again; every other field is copied; the analysis
      keeps its label and records the two factors. */
  function Adjust(a: Analysis, weather: real, sentiment: real): (r: Analysis)
    ensures r.supplier == a.supplier && r.cost == a.cost
    ensures r.ratings == a.ratings && r.reviews == a.reviews && r.score == a.score
    ensures r.analysis.band == a.analysis.band
    ensures r.analysis.adjustedBy == Some(Factors(weather, sentiment))
    ensures IsCents(r.riskPercentage)
    ensures r.riskPercentage == AdjustedRisk(a.riskPercentage, weather, sentiment)
  {
    a.(riskPercentage := AdjustedRisk(a.riskPercentage, weather, sentiment),
       analysis := a.analysis.(adjustedBy := Some(Factors(weather, sentiment))))
  }

  /** The adjustment map over the sorted records, with the sentiment factor
      taken from the average of the article scores. */
  function AdjustAll(rs: seq<Analysis>, weather: real, scores: seq<real>): (out: seq<Analysis>)
    ensures |out| == |rs|
    ensures forall i :: 0 <= i < |rs| ==>
      out[i] == Adjust(rs[i], weather, SentimentRiskFactor(AverageSentiment(scores)))
  {
    var f := SentimentRiskFactor(AverageSentiment(scores));
    seq(|rs|, i requires 0 <= i < |rs| => Adjust(rs[i], weather, f))
  }

  /** With both factors equal to one, an already rounded risk is unchanged. */
  lemma NeutralAdjustKeepsRisk(a: Analysis)
    requires IsCents(a.riskPercentage)
    ensures Adjust(a, 1.0, 1.0).riskPercentage == a.riskPercentage
  {
    assert a.riskPercentage * 1.0 * 1.0 == a.riskPercentage;
    Round2FixesCents(a.riskPercentage);
  }

  /** A weather factor of one and no scored articles leave every rounded
      risk where it was. */
  lemma NeutralAdjustAllKeepsRisks(rs: seq<Analysis>)
    requires forall i :: 0 <= i < |rs| ==> IsCents(rs[i].riskPercentage)
    ensures forall i :: 0 <= i < |rs| ==>
      AdjustAll(rs, 1.0, [])[i].riskPercentage == rs[i].riskPercentage
  {
    forall i | 0 <= i < |rs|
      ensures AdjustAll(rs, 1.0, [])[i].riskPercentage == rs[i].riskPercentage
    {
      NeutralAdjustKeepsRisk(rs[i]);
    }
  }

  /** A non-negative combined factor keeps two adjusted risks in order. */
  lemma AdjustedRiskMonotone(p: real, q: real, w: real, f: real)
    requires p <= q && w * f >= 0.0
    ensures AdjustedRisk(p, w, f) <= AdjustedRisk(q, w, f)
  {
    var a, b := p * w * f, q * w * f;
    ProductOrder(p, q, w, f);
    assert a <= b;
    Round2Monotone(a, b);
  }

  /** A negative combined factor (an average sentiment below -10 with a
      positive temperature) reverses the order of two risks. */
  lemma AdjustedRiskAntitone(p: real, q: real, w: real, f: real)
    requires p <= q && w * f < 0.0
    ensures AdjustedRisk(q, w, f) <= AdjustedRisk(p, w, f)
  {
    var c := w * f;
    var a, b := p * w * f, q * w * f;
    assert a == p * c && b == q * c;
    ScaleMonotone(p, q, -c);
    assert p * -c == -a && q * -c == -b;
    Round2Monotone(b, a);
  }

  /** While risk times weather factor is non-negative, a larger sentiment
      factor never lowers the adjusted risk. The factor grows with the
      average sentiment and exceeds one exactly for positive news, so
      positive news ranks at or above neutral news. A negative product
      reverses this. */
  lemma SentimentRaisesRisk(risk: real, weather: real, f: real, f': real)
    requires risk * weather >= 0.0 && f <= f'
    ensures AdjustedRisk(risk, weather, f) <= AdjustedRisk(risk, weather, f')
  {
    var a, b := risk * weather * f, risk * weather * f';
    FactorOrder(risk, weather, f, f');
    assert a <= b;
    Round2Monotone(a, b);
  }

  lemma FactorOrder(p: real, w: real, f: real, f': real)
    requires p * w >= 0.0 && f <= f'
    ensures p * w * f <= p * w * f'
  {
    ScaleMonotone(f, f', p * w);
  }

  /** A non-negative combined factor keeps the records in ascending order. */
  lemma AdjustKeepsOrder(a: Analysis, b: Analysis, weather: real, sentiment: real)
    requires a.riskPercentage <= b.riskPercentage
    requires weather * sentiment >= 0.0
    ensures Adjust(a, weather, sentiment).riskPercentage <= Adjust(b, weather, sentiment).riskPercentage
  {
    AdjustedRiskMonotone(a.riskPercentage, b.riskPercentage, weather, sentiment);
  }

  /** Hence adjusting a sorted list by non-negative factors leaves it sorted. */
  lemma AdjustAllKeepsSorted(rs: seq<Analysis>, weather: real, scores: seq<real>)
    requires SortedByRisk(rs)
    requires weather * SentimentRiskFactor(AverageSentiment(scores)) >= 0.0
    ensures SortedByRisk(AdjustAll(rs, weather, scores))
  {
    var f := SentimentRiskFactor(AverageSentiment(scores));
    var out := AdjustAll(rs, weather, scores);
    forall i, j | 0 <= i < j < |out|
      ensures out[i].riskPercentage <= out[j].riskPercentage
    {
      AdjustKeepsOrder(rs[i], rs[j], weather, f);
    }
  }

  /** Nothing clamps the adjusted risk and the label is not recomputed: a
      record at 68.5 adjusted for a reported temperature of 290 (the weather
      service's default unit is kelvin) with no scored articles reads 198.65. */
  lemma AdjustedRiskIsNotClamped(a: Analysis)
    requires a.riskPercentage == 68.5
    ensures Adjust(a, WeatherRiskFactor(290.0), SentimentRiskFactor(AverageSentiment([]))).riskPercentage == 198.65
    ensures Adjust(a, WeatherRiskFactor(290.0), 1.0).analysis.band == a.analysis.band
  {
    assert 68.5 * 2.9 * 1.0 == 198.65;
    Round2OfCents(19865);
  }
}
