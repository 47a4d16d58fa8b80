/**
 * Soil-sensor analysis: the moisture history against the crop's optimal range, and the latest
 * reading's nitrogen, phosphorus, potassium and pH against the crop's fertility ranges. Crop
 * tables are looked up by the exact crop name (no lower-casing), falling back to "default".
 * Any payload the analysis cannot read gives None, as the source's caught exception does.
 */
module SoilSensor {
  import opened Wrappers
  import opened Records
  import opened Stats

  // ------------------------------------------------------------------------------------------
  // Moisture
  // ------------------------------------------------------------------------------------------

  const MoistureRanges: map<string, (real, real)> := map[
    "maize" := (40.0, 60.0), "rice" := (60.0, 80.0), "sorghum" := (35.0, 55.0),
    "millet" := (30.0, 50.0), "cassava" := (35.0, 55.0), "yam" := (45.0, 65.0),
    "sweet_potato" := (40.0, 60.0), "groundnut" := (35.0, 55.0), "cowpea" := (30.0, 50.0),
    "soybean" := (40.0, 60.0), "default" := (40.0, 60.0)]

  function MoistureRangeFor(crop: string): (r: (real, real))
    ensures r.0 < r.1
    ensures crop !in MoistureRanges ==> r == (40.0, 60.0)
  {
    if crop in MoistureRanges then MoistureRanges[crop] else MoistureRanges["default"]
  }

  /** The lookup is case-sensitive: "Rice" is not "rice" and gets the default range. */
  lemma MoistureLookupIsExact()
    ensures MoistureRangeFor("rice") == (60.0, 80.0)
    ensures MoistureRangeFor("Rice") == (40.0, 60.0)
  {
  }

  datatype MoistureStatus = SeverelyUnderWatered | UnderWatered | MoistureOptimal | OverWatered | SeverelyOverWatered

  /** Below the range by more than 10 points is severe, above it by more than 10 likewise. */
  function MoistureStatusOf(average: real, range: (real, real)): (s: MoistureStatus)
    requires range.0 <= range.1
    ensures s == MoistureOptimal <==> range.0 <= average <= range.1
    ensures s == SeverelyUnderWatered <==> average < range.0 - 10.0
    ensures s == UnderWatered <==> range.0 - 10.0 <= average < range.0
    ensures s == SeverelyOverWatered <==> average > range.1 + 10.0
    ensures s == OverWatered <==> range.1 < average <= range.1 + 10.0
  {
    if average < range.0 then
      if average < range.0 - 10.0 then SeverelyUnderWatered else UnderWatered
    else if average > range.1 then
      if average > range.1 + 10.0 then SeverelyOverWatered else OverWatered
    else MoistureOptimal
  }

  function MoistureAdvice(s: MoistureStatus): string
  {
    match s
    case SeverelyUnderWatered => "Immediate irrigation needed. Soil moisture is significantly below optimal levels for the crop."
    case UnderWatered => "Irrigation recommended. Soil moisture is below optimal levels for the crop."
    case SeverelyOverWatered => "Avoid irrigation. Consider improving drainage to reduce excess soil moisture."
    case OverWatered => "Delay irrigation. Current soil moisture is above optimal levels for the crop."
    case MoistureOptimal => "Maintain current irrigation practices. Soil moisture is at optimal levels for the crop."
  }

  datatype MoistureAnalysis = MoistureAnalysis(
    average: real,
    minimum: real,
    maximum: real,
    optimalRange: (real, real),
    belowPercentage: real,
    withinPercentage: real,
    abovePercentage: real,
    status: MoistureStatus,
    recommendation: string)

  /** Every reading's `moisture` (read with `[...]`, so required). */
  function MoistureValues(data: seq<SoilReading>): (ms: Option<seq<real>>)
    ensures ms.Some? <==> forall i :: 0 <= i < |data| ==> data[i].moisture.Some?
    ensures ms.Some? ==> |ms.value| == |data| && forall i :: 0 <= i < |data| ==> ms.value[i] == data[i].moisture.value
  {
    var xs := seq(|data|, i requires 0 <= i < |data| => data[i].moisture);
    assert forall i :: 0 <= i < |data| ==> xs[i] == data[i].moisture;
    AllPresent(xs)
  }

  /**
   * The moisture history against the crop's range: average, extremes, the share of readings below,
   * within (bounds included) and above the range, the status of the average and its advice.
   * No `data`, an empty history or a reading without moisture gives None.
   */
  function AnalyzeSoilMoisture(data: Option<seq<SoilReading>>, crop: string): (a: Option<MoistureAnalysis>)
    ensures a.None? <==> data.None? || data.value == [] || MoistureValues(data.value).None?
    ensures a.Some? ==> a.value.minimum <= a.value.average <= a.value.maximum
    ensures a.Some? ==> a.value.optimalRange == MoistureRangeFor(crop)
    ensures a.Some? ==> a.value.status == MoistureStatusOf(a.value.average, a.value.optimalRange)
    ensures a.Some? ==> a.value.recommendation == MoistureAdvice(a.value.status)
    ensures a.Some? ==>
      var ms, range := MoistureValues(data.value).value, a.value.optimalRange;
      && a.value.average == Mean(ms) && a.value.minimum == Min(ms) && a.value.maximum == Max(ms)
      && a.value.belowPercentage == Percentage(CountBelow(ms, range.0), |ms|)
      && a.value.withinPercentage == Percentage(CountBetween(ms, range.0, range.1), |ms|)
      && a.value.abovePercentage == Percentage(CountAbove(ms, range.1), |ms|)
  {
    if data.None? || data.value == [] then None
    else
      match MoistureValues(data.value)
      case None => None
      case Some(ms) =>
        var range := MoistureRangeFor(crop);
        var n := |ms|;
        var average := Mean(ms);
        var status := MoistureStatusOf(average, range);
        MeanBetweenMinAndMax(ms);
        Some(MoistureAnalysis(
          average, Min(ms), Max(ms), range,
          Percentage(CountBelow(ms, range.0), n),
          Percentage(CountBetween(ms, range.0, range.1), n),
          Percentage(CountAbove(ms, range.1), n),
          status, MoistureAdvice(status)))
  }

  /** The below, within and above shares partition the readings, so they add up to 100. */
  lemma MoisturePercentagesSumToHundred(data: Option<seq<SoilReading>>, crop: string)
    requires AnalyzeSoilMoisture(data, crop).Some?
    ensures var a := AnalyzeSoilMoisture(data, crop).value;
      a.belowPercentage + a.withinPercentage + a.abovePercentage == 100.0
  {
    var ms := MoistureValues(data.value).value;
    var range := MoistureRangeFor(crop);
    CountsPartition(ms, range.0, range.1);
    PercentagesSumToHundred(
      CountBelow(ms, range.0) as real, CountBetween(ms, range.0, range.1) as real,
      CountAbove(ms, range.1) as real, |ms| as real);
  }

  // ------------------------------------------------------------------------------------------
  // Fertility
  // ------------------------------------------------------------------------------------------

  datatype FertilityRanges = FertilityRanges(
    nitrogen: (real, real), phosphorus: (real, real), potassium: (real, real), ph: (real, real))

  const FertilityTable: map<string, FertilityRanges> := map[
    "maize" := FertilityRanges((20.0, 30.0), (10.0, 15.0), (15.0, 25.0), (5.8, 7.0)),
    "rice" := FertilityRanges((15.0, 25.0), (8.0, 13.0), (15.0, 25.0), (5.5, 6.5)),
    "sorghum" := FertilityRanges((15.0, 25.0), (10.0, 15.0), (15.0, 20.0), (5.5, 7.5)),
    "default" := FertilityRanges((15.0, 25.0), (10.0, 15.0), (15.0, 20.0), (6.0, 7.0))]

  function FertilityRangesFor(crop: string): (r: FertilityRanges)
    ensures 0.0 < r.nitrogen.0 < r.nitrogen.1 && 0.0 < r.phosphorus.0 < r.phosphorus.1
    ensures 0.0 < r.potassium.0 < r.potassium.1 && 0.0 < r.ph.0 < r.ph.1
    ensures crop !in FertilityTable ==> r == FertilityTable["default"]
  {
    if crop in FertilityTable then FertilityTable[crop] else FertilityTable["default"]
  }

  /** The statuses of the nutrients and of pH, which share one score table. */
  datatype FertilityStatus =
    | SeverelyDeficient | Deficient | High | Excess
    | TooAcidic | MildlyAcidic | MildlyAlkaline | TooAlkaline
    | Optimal

  function Score(s: FertilityStatus): (n: nat)
    ensures n <= 3 && (n == 3 <==> s == Optimal)
  {
    match s
    case SeverelyDeficient => 0
    case Deficient => 1
    case MildlyAcidic => 2
    case MildlyAlkaline => 2
    case High => 2
    case Optimal => 3
    case Excess => 1
    case TooAcidic => 0
    case TooAlkaline => 0
  }

  datatype Nutrient = Nitrogen | Phosphorus | Potassium
  {
    function Name(): string
    {
      match this
      case Nitrogen => "nitrogen"
      case Phosphorus => "phosphorus"
      case Potassium => "potassium"
    }
  }

  /**
   * The rule shared by the three nutrients: below 70% of the lower bound is severely deficient,
   * below it deficient, above 130% of the upper bound excess, above it high.
   */
  function NutrientStatusOf(v: real, range: (real, real)): (s: FertilityStatus)
    requires 0.0 <= range.0 <= range.1
    ensures s in {SeverelyDeficient, Deficient, Optimal, High, Excess}
    ensures s == Optimal <==> range.0 <= v <= range.1
    ensures s == SeverelyDeficient <==> v < range.0 * 0.7
    ensures s == Excess <==> v > range.1 * 1.3
  {
    if v < range.0 then
      if v < range.0 * 0.7 then SeverelyDeficient else Deficient
    else if v > range.1 then
      if v > range.1 * 1.3 then Excess else High
    else Optimal
  }

  function NutrientAdvice(n: Nutrient, s: FertilityStatus): string
  {
    match s
    case SeverelyDeficient => "Apply " + n.Name() + "-rich fertilizer as soon as possible."
    case Deficient => "Consider applying " + n.Name() + "-rich fertilizer."
    case Excess => "Avoid applying " + n.Name() + " fertilizer."
    case High => "Reduce " + n.Name() + " fertilizer application."
    case _ => "Maintain current " + n.Name() + " fertilization practices."
  }

  /** pH uses additive half-unit margins around its range. */
  function PhStatusOf(v: real, range: (real, real)): (s: FertilityStatus)
    requires range.0 <= range.1
    ensures s in {TooAcidic, MildlyAcidic, Optimal, MildlyAlkaline, TooAlkaline}
    ensures s == Optimal <==> range.0 <= v <= range.1
    ensures s == TooAcidic <==> v < range.0 - 0.5
    ensures s == TooAlkaline <==> v > range.1 + 0.5
  {
    if v < range.0 then
      if v < range.0 - 0.5 then TooAcidic else MildlyAcidic
    else if v > range.1 then
      if v > range.1 + 0.5 then TooAlkaline else MildlyAlkaline
    else Optimal
  }

  function PhAdvice(s: FertilityStatus): string
  {
    match s
    case TooAcidic => "Apply lime to increase soil pH."
    case MildlyAcidic => "Consider applying lime to increase soil pH slightly."
    case TooAlkaline => "Apply sulfur or acidic organic matter to decrease soil pH."
    case MildlyAlkaline => "Consider applying acidic organic matter to decrease soil pH slightly."
    case _ => "Maintain current soil pH management practices."
  }

  datatype NutrientAnalysis = NutrientAnalysis(value: real, optimalRange: (real, real), status: FertilityStatus, recommendation: string)

  datatype Overall = Good | Fair | Poor

  function OverallAdvice(o: Overall): string
  {
    match o
    case Good => "Maintain current soil fertility management practices."
    case Fair => "Follow specific nutrient recommendations to improve soil fertility."
    case Poor => "Significant soil fertility issues detected. Follow specific recommendations for each nutrient and consider consulting an agronomist."
  }

  /** The mean of the four status scores: at least 2.5 is good, at least 1.5 fair. */
  function OverallOf(n: FertilityStatus, p: FertilityStatus, k: FertilityStatus, ph: FertilityStatus): (o: Overall)
    ensures o == Good <==> Score(n) + Score(p) + Score(k) + Score(ph) >= 10
    ensures o == Poor <==> Score(n) + Score(p) + Score(k) + Score(ph) < 6
  {
    var average := (Score(n) + Score(p) + Score(k) + Score(ph)) as real / 4.0;
    if average >= 2.5 then Good else if average >= 1.5 then Fair else Poor
  }

  datatype FertilityAnalysis = FertilityAnalysis(
    timestamp: string,
    overallStatus: Overall,
    overallRecommendation: string,
    nitrogen: NutrientAnalysis,
    phosphorus: NutrientAnalysis,
    potassium: NutrientAnalysis,
    ph: NutrientAnalysis)

  /** A reading the fertility analysis can read: all four values and the timestamp are present. */
  predicate FertilityReadable(r: SoilReading)
  {
    r.nitrogen.Some? && r.phosphorus.Some? && r.potassium.Some? && r.ph.Some? && r.timestamp.Some?
  }

  function AnalyzeNutrient(n: Nutrient, v: real, range: (real, real)): (a: NutrientAnalysis)
    requires 0.0 <= range.0 <= range.1
  {
    var s := NutrientStatusOf(v, range);
    NutrientAnalysis(v, range, s, NutrientAdvice(n, s))
  }

  /**
   * The latest reading against the crop's fertility ranges, with the overall verdict. No `data`,
   * an empty history, or a latest reading missing a value or its timestamp gives None.
   */
  function AnalyzeSoilFertility(data: Option<seq<SoilReading>>, crop: string): (a: Option<FertilityAnalysis>)
    ensures a.None? <==> data.None? || data.value == [] || !FertilityReadable(data.value[|data.value| - 1])
    ensures a.Some? ==> (a.value.overallStatus ==
      OverallOf(a.value.nitrogen.status, a.value.phosphorus.status, a.value.potassium.status, a.value.ph.status))
    ensures a.Some? ==> a.value.overallRecommendation == OverallAdvice(a.value.overallStatus)
    ensures a.Some? ==> a.value.ph.status == PhStatusOf(a.value.ph.value, FertilityRangesFor(crop).ph)
    ensures a.Some? ==> a.value.nitrogen.status == NutrientStatusOf(a.value.nitrogen.value, FertilityRangesFor(crop).nitrogen)
    ensures a.Some? ==> a.value.phosphorus.status == NutrientStatusOf(a.value.phosphorus.value, FertilityRangesFor(crop).phosphorus)
    ensures a.Some? ==> a.value.potassium.status == NutrientStatusOf(a.value.potassium.value, FertilityRangesFor(crop).potassium)
    ensures a.Some? ==>
      var r, ranges := data.value[|data.value| - 1], FertilityRangesFor(crop);
      && a.value.timestamp == r.timestamp.value
      && a.value.nitrogen.value == r.nitrogen.value && a.value.phosphorus.value == r.phosphorus.value
      && a.value.potassium.value == r.potassium.value && a.value.ph.value == r.ph.value
      && a.value.nitrogen.optimalRange == ranges.nitrogen && a.value.phosphorus.optimalRange == ranges.phosphorus
      && a.value.potassium.optimalRange == ranges.potassium && a.value.ph.optimalRange == ranges.ph
    ensures a.Some? ==>
      && a.value.nitrogen.recommendation == NutrientAdvice(Nitrogen, a.value.nitrogen.status)
      && a.value.phosphorus.recommendation == NutrientAdvice(Phosphorus, a.value.phosphorus.status)
      && a.value.potassium.recommendation == NutrientAdvice(Potassium, a.value.potassium.status)
      && a.value.ph.recommendation == PhAdvice(a.value.ph.status)
  {
    if data.None? || data.value == [] then None
    else
      var r := data.value[|data.value| - 1];
      if !FertilityReadable(r) then None
      else
        var ranges := FertilityRangesFor(crop);
        var nitrogen := AnalyzeNutrient(Nitrogen, r.nitrogen.value, ranges.nitrogen);
        var phosphorus := AnalyzeNutrient(Phosphorus, r.phosphorus.value, ranges.phosphorus);
        var potassium := AnalyzeNutrient(Potassium, r.potassium.value, ranges.potassium);
        var phStatus := PhStatusOf(r.ph.value, ranges.ph);
        var ph := NutrientAnalysis(r.ph.value, ranges.ph, phStatus, PhAdvice(phStatus));
        var overall := OverallOf(nitrogen.status, phosphorus.status, potassium.status, ph.status);
        Some(FertilityAnalysis(r.timestamp.value, overall, OverallAdvice(overall), nitrogen, phosphorus, potassium, ph))
  }

  /** Only the latest reading matters: earlier readings never change the fertility analysis. */
  lemma FertilityUsesLatestReading(earlier: seq<SoilReading>, latest: SoilReading, crop: string)
    ensures AnalyzeSoilFertility(Some(earlier + [latest]), crop) == AnalyzeSoilFertility(Some([latest]), crop)
  {
    var data := earlier + [latest];
    assert data[|data| - 1] == latest;
  }

  /** A reading inside every range is judged Good overall. */
  lemma AllOptimalIsGood(r: SoilReading, crop: string)
    requires FertilityReadable(r)
    requires var ranges := FertilityRangesFor(crop);
      && ranges.nitrogen.0 <= r.nitrogen.value <= ranges.nitrogen.1
      && ranges.phosphorus.0 <= r.phosphorus.value <= ranges.phosphorus.1
      && ranges.potassium.0 <= r.potassium.value <= ranges.potassium.1
      && ranges.ph.0 <= r.ph.value <= ranges.ph.1
    ensures AnalyzeSoilFertility(Some([r]), crop).Some?
    ensures AnalyzeSoilFertility(Some([r]), crop).value.overallStatus == Good
  {
    var ranges := FertilityRangesFor(crop);
    assert [r][|[r]| - 1] == r;
    var a := AnalyzeSoilFertility(Some([r]), crop).value;
    assert a.nitrogen == AnalyzeNutrient(Nitrogen, r.nitrogen.value, ranges.nitrogen);
    assert a.phosphorus == AnalyzeNutrient(Phosphorus, r.phosphorus.value, ranges.phosphorus);
    assert a.potassium == AnalyzeNutrient(Potassium, r.potassium.value, ranges.potassium);
    assert a.nitrogen.status == Optimal && a.phosphorus.status == Optimal;
    assert a.potassium.status == Optimal && a.ph.status == Optimal;
  }

  /** A Good verdict rules out any severe finding: one score of 0 caps the total at 9. */
  lemma GoodExcludesSevereFindings(data: Option<seq<SoilReading>>, crop: string)
    requires AnalyzeSoilFertility(data, crop).Some?
    requires AnalyzeSoilFertility(data, crop).value.overallStatus == Good
    ensures var a := AnalyzeSoilFertility(data, crop).value;
      && a.nitrogen.status != SeverelyDeficient && a.phosphorus.status != SeverelyDeficient
      && a.potassium.status != SeverelyDeficient && a.ph.status !in {TooAcidic, TooAlkaline}
  {
  }
}
