/** The two handlers of src/template.ts that score the supplier list, with
    the HTTP plumbing removed: the basic analysis (score every supplier, sort
    ascending, take the head) and the detailed analysis (score, sort, adjust
    for weather and news sentiment, refuse an empty list, reduce to the best).
    The list of suppliers, the reported temperature and the article sentiment
    scores are parameters. */
module SupplierHandlers {
  import opened Wrappers
  import opened Rounding
  import opened SupplierRisk
  import opened Selection
  import opened Adjustment

  /** What the basic analysis responds with (the date and the fixed method
      description are left out). */
  datatype Overview = Overview(allSuppliers: seq<Analysis>, bestSupplier: Option<Analysis>)

  /** What the detailed analysis responds with (the date is left out; the
      factors are kept as numbers, not as `toFixed(2)` strings). */
  datatype Report = Report(
    suppliers: seq<Analysis>,
    totalSuppliers: nat,
    bestSupplier: Analysis,
    weatherRiskFactor: real,
    sentimentRiskFactor: real)

  /** The errors the detailed handler reports. */
  datatype AnalysisError = Scoring(cause: ScoreError) | NoSuppliersAvailable

  /** Index k holds the first supplier the scorer refuses. */
  predicate IsFirstInvalid(s: seq<Supplier>, k: int) {
    && 0 <= k < |s|
    && !ValidSupplier(s[k])
    && (forall j :: 0 <= j < k ==> ValidSupplier(s[j]))
  }

  /** Scoring the whole list in order: the first refused supplier's error
      escapes; otherwise every supplier is scored, in order. */
  function ScoreAll(s: seq<Supplier>): (r: Result<seq<Analysis>, ScoreError>)
    ensures r.Success? <==> forall i :: 0 <= i < |s| ==> ValidSupplier(s[i])
    ensures r.Success? ==> |r.value| == |s|
    ensures r.Success? ==> forall i :: 0 <= i < |s| ==> r.value[i] == CalculateRisk(s[i]).value
    ensures r.Failure? ==> exists k :: IsFirstInvalid(s, k) && r.error == CalculateRisk(s[k]).error
  {
    if |s| == 0 then Success([])
    else
      match CalculateRisk(s[0])
      case Failure(e) =>
        assert IsFirstInvalid(s, 0);
        Failure(e)
      case Success(a) =>
        match ScoreAll(s[1..])
        case Failure(e) =>
          ghost var k :| IsFirstInvalid(s[1..], k) && e == CalculateRisk(s[1..][k]).error;
          assert IsFirstInvalid(s, 1 + k);
          Failure(e)
        case Success(rest) =>
          assert forall i :: 1 <= i < |s| ==> s[i] == s[1..][i - 1];
          Success([a] + rest)
  }

  /** POST /analyze-suppliers: score all suppliers, sort them by ascending
      risk and report the head as the best (absent for an empty list). */
  function AnalyzeSuppliers(s: seq<Supplier>): (r: Result<Overview, ScoreError>)
    ensures r.Success? <==> ScoreAll(s).Success?
    ensures r.Failure? ==> r.error == ScoreAll(s).error
    ensures r.Success? ==>
      && SortedByRisk(r.value.allSuppliers)
      && multiset(r.value.allSuppliers) == multiset(ScoreAll(s).value)
      && r.value.allSuppliers == SortByRisk(ScoreAll(s).value)
      && (r.value.bestSupplier.None? <==> |s| == 0)
    ensures r.Success? && |s| > 0 ==>
      r.value.bestSupplier == Some(ScoreAll(s).value[FirstMinIndex(ScoreAll(s).value)])
  {
    var scored :- ScoreAll(s);
    var sorted := SortByRisk(scored);
    if |sorted| == 0 then
      Success(Overview(sorted, None))
    else
      assert sorted[0] == scored[FirstMinIndex(scored)] by { SortHeadIsFirstMin(scored); }
      Success(Overview(sorted, Some(sorted[0])))
  }

  /** GET /supplier-analysis: score and sort, adjust every record by the
      weather and sentiment factors, refuse an empty list, and pick the first
      record of least adjusted risk. */
  method SupplierAnalysis(s: seq<Supplier>, temperature: real, sentimentScores: seq<real>)
    returns (r: Result<Report, AnalysisError>)
    ensures ScoreAll(s).Failure? ==> r == Failure(Scoring(ScoreAll(s).error))
    ensures ScoreAll(s).Success? && |s| == 0 ==> r == Failure(NoSuppliersAvailable)
    ensures r.Success? <==> |s| > 0 && forall i :: 0 <= i < |s| ==> ValidSupplier(s[i])
    ensures r.Success? ==>
      && r.value.weatherRiskFactor == WeatherRiskFactor(temperature)
      && r.value.sentimentRiskFactor == SentimentRiskFactor(AverageSentiment(sentimentScores))
      && r.value.totalSuppliers == |r.value.suppliers| == |s|
      && r.value.suppliers == AdjustAll(SortByRisk(ScoreAll(s).value), r.value.weatherRiskFactor, sentimentScores)
      && r.value.bestSupplier == r.value.suppliers[FirstMinIndex(r.value.suppliers)]
  {
    var scored := ScoreAll(s);
    if scored.Failure? {
      return Failure(Scoring(scored.error));
    }
    var sorted := SortByRisk(scored.value);
    var weather := WeatherRiskFactor(temperature);
    var sentiment := SentimentRiskFactor(AverageSentiment(sentimentScores));
    var adjusted := AdjustAll(sorted, weather, sentimentScores);
    var best := SelectBest(adjusted);
    if best.Failure? {
      return Failure(NoSuppliersAvailable);
    }
    return Success(Report(adjusted, |adjusted|, best.value, weather, sentiment));
  }

  /** In a list already in ascending order the first minimum is the head. */
  lemma SortedFirstMinIsHead(s: seq<Analysis>)
    requires |s| > 0 && SortedByRisk(s)
    ensures FirstMinIndex(s) == 0
  {
    assert IsFirstMin(s, 0);
    FirstMinUnique(s, 0, FirstMinIndex(s));
  }

  /** Adjusting a sorted list by a non-negative combined factor leaves the
      first minimum at the head, still naming the same supplier; with
      BasicBestIsSortedHead this says the detailed handler then picks the
      supplier the basic handler reports. */
  lemma AdjustedSortedHeadIsBest(rs: seq<Analysis>, weather: real, sentimentScores: seq<real>)
    requires |rs| > 0 && SortedByRisk(rs)
    requires weather * SentimentRiskFactor(AverageSentiment(sentimentScores)) >= 0.0
    ensures var adjusted := AdjustAll(rs, weather, sentimentScores);
      && FirstMinIndex(adjusted) == 0
      && adjusted[0].supplier == rs[0].supplier
  {
    var adjusted := AdjustAll(rs, weather, sentimentScores);
    AdjustAllKeepsSorted(rs, weather, sentimentScores);
    SortedFirstMinIsHead(adjusted);
  }

  /** The basic analysis reports the head of its sorted list. */
  lemma BasicBestIsSortedHead(s: seq<Supplier>)
    requires |s| > 0 && forall i :: 0 <= i < |s| ==> ValidSupplier(s[i])
    ensures AnalyzeSuppliers(s).Success?
    ensures AnalyzeSuppliers(s).value.bestSupplier == Some(SortByRisk(ScoreAll(s).value)[0])
  {
    SortHeadIsFirstMin(ScoreAll(s).value);
  }

  /** The fixed supplier list of the service. */
  const Suppliers: seq<Supplier> := [
    Supplier("Reliable Transports", 50000.0, 1.0, 5.0),
    Supplier("Speedy Logistics", 55000.0, 3.0, 1.0),
    Supplier("Quick Haulers", 48000.0, 7.0, 3.0),
    Supplier("Safe cargo Movers", 52000.0, 9.0, 2.0)
  ]

  /** The fixed list scores 55.33, 68.5, 34 and 39.67, and the basic
      analysis names "Quick Haulers" at 34, labelled "Medium risk". */
  lemma FixedSuppliersAnalysis()
    ensures ScoreAll(Suppliers).Success?
    ensures ScoreAll(Suppliers).value[0].riskPercentage == 55.33
    ensures ScoreAll(Suppliers).value[1].riskPercentage == 68.5
    ensures ScoreAll(Suppliers).value[2].riskPercentage == 34.0
    ensures ScoreAll(Suppliers).value[3].riskPercentage == 39.67
    ensures AnalyzeSuppliers(Suppliers).Success?
    ensures AnalyzeSuppliers(Suppliers).value.bestSupplier.Some?
    ensures AnalyzeSuppliers(Suppliers).value.bestSupplier.value.supplier == "Quick Haulers"
    ensures AnalyzeSuppliers(Suppliers).value.bestSupplier.value.riskPercentage == 34.0
    ensures AnalyzeSuppliers(Suppliers).value.bestSupplier.value.analysis.band == MediumRisk
  {
    var scored := ScoreAll(Suppliers).value;
    assert ExpectedRisk(Suppliers[0]) == 25.0 + 27.0 + 20.0 / 6.0;
    assert (100.0 * ExpectedRisk(Suppliers[0]) + 0.5).Floor == 5533;
    assert ExpectedRisk(Suppliers[1]) == 68.5;
    assert (100.0 * ExpectedRisk(Suppliers[1]) + 0.5).Floor == 6850;
    assert ExpectedRisk(Suppliers[2]) == 34.0;
    assert (100.0 * ExpectedRisk(Suppliers[2]) + 0.5).Floor == 3400;
    assert ExpectedRisk(Suppliers[3]) == 30.0 + 3.0 + 20.0 / 3.0;
    assert (100.0 * ExpectedRisk(Suppliers[3]) + 0.5).Floor == 3967;
    assert scored[2].riskPercentage == 34.0;
    assert IsFirstMin(scored, 2);
    FirstMinUnique(scored, 2, FirstMinIndex(scored));
  }
}
