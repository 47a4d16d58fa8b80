/**
 * The edge predictors: a weighted yield estimate, a three-day irrigation decision tree and a
 * pest/disease risk scorer. Crop tables are constant maps with a "default" row, looked up by the
 * lower-cased crop name. The random jitter of the yield estimate is the parameter `r`.
 */
module EdgeModels {
  import opened Wrappers
  import opened Text
  import opened Records
  import opened Stats
  import opened Ranking

  // ------------------------------------------------------------------------------------------
  // Yield
  // ------------------------------------------------------------------------------------------

  datatype YieldParams = YieldParams(baseYield: real, ndviWeight: real, soilWeight: real, weatherWeight: real)

  const YieldTable: map<string, YieldParams> := map[
    "maize" := YieldParams(3.5, 0.6, 0.2, 0.2),
    "rice" := YieldParams(4.0, 0.5, 0.3, 0.2),
    "sorghum" := YieldParams(2.5, 0.5, 0.2, 0.3),
    "millet" := YieldParams(1.5, 0.5, 0.2, 0.3),
    "cassava" := YieldParams(10.0, 0.4, 0.4, 0.2),
    "default" := YieldParams(3.0, 0.5, 0.25, 0.25)]

  /** The row for the lower-cased crop name, or the "default" row. */
  function YieldParamsFor(crop: string): YieldParams
  {
    var key := ToLower(crop);
    if key in YieldTable then YieldTable[key] else YieldTable["default"]
  }

  /** The yield lookup does not depend on the case of the crop name. */
  lemma YieldLookupIgnoresCase(crop: string)
    ensures YieldParamsFor(crop) == YieldParamsFor(ToLower(crop))
  {
    ToLowerIdempotent(crop);
  }

  /** Crops outside the table get the "default" row. */
  lemma YieldUnknownCropUsesDefault(crop: string)
    requires ToLower(crop) !in {"maize", "rice", "sorghum", "millet", "cassava"}
    ensures YieldParamsFor(crop) == YieldParams(3.0, 0.5, 0.25, 0.25)
  {
  }

  /** In every row the three weights sum to one and the base yield is positive. */
  lemma YieldWeightsSumToOne(crop: string)
    ensures var p := YieldParamsFor(crop);
      p.ndviWeight + p.soilWeight + p.weatherWeight == 1.0 && p.baseYield > 0.0
  {
  }

  /** `1 - |x - centre| / centre`: 1 at the centre, falling off linearly on both sides. */
  function Closeness(x: real, centre: real): (s: real)
    requires centre > 0.0
    ensures s <= 1.0
    ensures s == 1.0 <==> x == centre
  {
    1.0 - Abs((x - centre) / centre)
  }

  /** The mean of the five soil scores; absent readings take the defaults 50, 25, 20, 10 and 15. */
  function SoilScore(soil: SoilReading): (s: real)
    ensures s <= 1.0
  {
    var moisture := soil.moisture.GetOr(50.0);
    var temperature := soil.temperature.GetOr(25.0);
    var nitrogen := soil.nitrogen.GetOr(20.0);
    var phosphorus := soil.phosphorus.GetOr(10.0);
    var potassium := soil.potassium.GetOr(15.0);
    (Closeness(moisture, 60.0) + Closeness(temperature, 25.0)
      + Min2(1.0, nitrogen / 30.0) + Min2(1.0, phosphorus / 15.0) + Min2(1.0, potassium / 25.0)) / 5.0
  }

  /** Soil at 60 % moisture and 25 degrees with N, P, K at or above 30, 15, 25 scores exactly 1. */
  lemma SoilScoreBest(soil: SoilReading)
    requires soil.moisture == Some(60.0) && soil.temperature == Some(25.0)
    requires soil.nitrogen.Some? && soil.nitrogen.value >= 30.0
    requires soil.phosphorus.Some? && soil.phosphorus.value >= 15.0
    requires soil.potassium.Some? && soil.potassium.value >= 25.0
    ensures SoilScore(soil) == 1.0
  {
  }

  /**
   * `weather_data.get("temperature", {}).get("day", 25)`: 25 when the key is absent or the object
   * has no "day"; a bare-number temperature has no `.get`, and the prediction fails.
   */
  function YieldWeatherTemperature(w: WeatherDay): (t: Option<real>)
    ensures t.None? <==> w.temperature.Some? && w.temperature.value.TempScalar?
  {
    match w.temperature
    case None => Some(25.0)
    case Some(TempDict(day, _, _)) => Some(day.GetOr(25.0))
    case Some(TempScalar(_)) => None
  }

  /** The mean of the temperature, rain and humidity scores; rain defaults to 0, humidity to 60. */
  function WeatherScore(temperature: real, w: WeatherDay): (s: real)
    ensures s <= 1.0
  {
    var rain := w.rain.GetOr(0.0);
    var humidity := w.humidity.GetOr(60.0);
    (Closeness(temperature, 25.0) + Min2(1.0, rain / 20.0) + Closeness(humidity, 60.0)) / 3.0
  }

  datatype YieldComponents = YieldComponents(ndvi: real, soil: real, weather: real)
  {
    function Factor(): real { ndvi + soil + weather }
  }

  function Components(avgNdvi: real, soil: SoilReading, temperature: real, w: WeatherDay, p: YieldParams): YieldComponents
  {
    YieldComponents((avgNdvi / 0.7) * p.ndviWeight, SoilScore(soil) * p.soilWeight, WeatherScore(temperature, w) * p.weatherWeight)
  }

  /** With weights summing to one, the soil and weather components together never exceed their weights. */
  lemma ComponentsBounded(avgNdvi: real, soil: SoilReading, temperature: real, w: WeatherDay, crop: string)
    ensures var p := YieldParamsFor(crop);
      var c := Components(avgNdvi, soil, temperature, w, p);
      c.soil + c.weather <= p.soilWeight + p.weatherWeight
  {
    var p := YieldParamsFor(crop);
    YieldWeightsSumToOne(crop);
    var s, t := SoilScore(soil), WeatherScore(temperature, w);
    WeightedAtMostWeight(s, p.soilWeight);
    WeightedAtMostWeight(t, p.weatherWeight);
  }

  lemma WeightedAtMostWeight(score: real, weight: real)
    requires score <= 1.0 && weight >= 0.0
    ensures score * weight <= weight
  {
    assert weight - score * weight == (1.0 - score) * weight;
  }

  datatype Quality = Poor | Average | Good | Excellent

  function QualityRank(q: Quality): nat
  {
    match q
    case Poor => 0
    case Average => 1
    case Good => 2
    case Excellent => 3
  }

  /** The quality label, with strict thresholds at 1.2, 1 and 0.8 times the base yield. */
  function QualityOf(predicted: real, base: real): Quality
  {
    if predicted > base * 1.2 then Excellent
    else if predicted > base then Good
    else if predicted > base * 0.8 then Average
    else Poor
  }

  /** Exactly 1.2 x base is only Good, exactly base only Average, exactly 0.8 x base Poor. */
  lemma QualityBoundaries(base: real)
    requires base > 0.0
    ensures QualityOf(base * 1.2, base) == Good
    ensures QualityOf(base, base) == Average
    ensures QualityOf(base * 0.8, base) == Poor
  {
  }

  /** A larger prediction never gets a worse label. */
  lemma QualityMonotone(p1: real, p2: real, base: real)
    requires base >= 0.0 && p1 <= p2
    ensures QualityRank(QualityOf(p1, base)) <= QualityRank(QualityOf(p2, base))
  {
  }

  datatype Contribution = Contribution(ndvi: real, soil: real, weather: real)

  lemma SharesSumToHundred(a: real, b: real, c: real)
    requires a + b + c != 0.0
    ensures a / (a + b + c) * 100.0 + b / (a + b + c) * 100.0 + c / (a + b + c) * 100.0 == 100.0
  {
    var f := a + b + c;
    assert a / f + b / f + c / f == f / f;
  }

  /** The percentage each component contributes; undefined (numpy's nan/inf) when the factor is 0. */
  function Shares(c: YieldComponents): (s: Option<Contribution>)
    ensures s.Some? <==> c.Factor() != 0.0
    ensures s.Some? ==> s.value.ndvi + s.value.soil + s.value.weather == 100.0
  {
    var f := c.Factor();
    if f == 0.0 then None
    else
      SharesSumToHundred(c.ndvi, c.soil, c.weather);
      Some(Contribution(c.ndvi / f * 100.0, c.soil / f * 100.0, c.weather / f * 100.0))
  }

  datatype YieldPrediction = YieldPrediction(
    cropType: string,
    predictedYield: real,
    yieldUnit: string,
    yieldQuality: Quality,
    confidence: real,
    contribution: Option<Contribution>)

  /** The jitter factor `0.9 + 0.2 * r` for a random draw `r` in [0, 1). */
  function Jitter(r: real): real
  {
    0.9 + 0.2 * r
  }

  lemma ScaleByFraction(x: real, r: real)
    requires x >= 0.0 && 0.0 <= r < 1.0
    ensures 0.0 <= x * r <= x
    ensures x > 0.0 ==> x * r < x
  {
    assert x - x * r == x * (1.0 - r);
  }

  lemma JitterBounds(x: real, r: real, y: real)
    requires 0.0 <= r < 1.0 && y == x * Jitter(r)
    ensures x >= 0.0 ==> 0.9 * x <= y <= 1.1 * x
    ensures x > 0.0 ==> y < 1.1 * x
  {
    assert y == 0.9 * x + 0.2 * (x * r);
    if x >= 0.0 {
      ScaleByFraction(x, r);
    }
  }

  lemma NonZeroProduct(a: real, b: real)
    requires a > 0.0
    ensures a * b != 0.0 <==> b != 0.0
  {
  }

  /** base yield x yield factor, before the jitter. */
  function ExpectedYield(ndviSeries: seq<real>, soil: SoilReading, temperature: real, weather: WeatherDay, crop: string): real
    requires |ndviSeries| > 0
  {
    var p := YieldParamsFor(crop);
    p.baseYield * Components(Mean(ndviSeries), soil, temperature, weather, p).Factor()
  }

  /**
   * The yield estimate: base yield x (ndvi + soil + weather component) x jitter, labelled by
   * quality. It fails (None) on an empty NDVI series and on a bare-number temperature.
   */
  function PredictYield(ndviSeries: seq<real>, soil: SoilReading, weather: WeatherDay, crop: string, r: real): (res: Option<YieldPrediction>)
    requires 0.0 <= r < 1.0
    ensures res.None? <==> |ndviSeries| == 0 || YieldWeatherTemperature(weather).None?
    ensures res.Some? ==>
      var x := ExpectedYield(ndviSeries, soil, YieldWeatherTemperature(weather).value, weather, crop);
      && res.value.predictedYield == x * Jitter(r)
      && res.value.yieldQuality == QualityOf(res.value.predictedYield, YieldParamsFor(crop).baseYield)
      && (res.value.contribution.Some? <==> x != 0.0)
      && (res.value.contribution.Some? ==>
            res.value.contribution.value.ndvi + res.value.contribution.value.soil + res.value.contribution.value.weather == 100.0)
  {
    if |ndviSeries| == 0 then None
    else
      match YieldWeatherTemperature(weather)
      case None => None
      case Some(temperature) =>
        var p := YieldParamsFor(crop);
        var c := Components(Mean(ndviSeries), soil, temperature, weather, p);
        var predicted := ExpectedYield(ndviSeries, soil, temperature, weather, crop) * Jitter(r);
        YieldWeightsSumToOne(crop);
        NonZeroProduct(p.baseYield, c.Factor());
        Some(YieldPrediction(crop, predicted, "tons/hectare", QualityOf(predicted, p.baseYield), 0.7, Shares(c)))
  }

  /** The estimate lies within [0.9, 1.1) times base yield x yield factor. */
  lemma PredictYieldBounds(ndviSeries: seq<real>, soil: SoilReading, weather: WeatherDay, crop: string, r: real)
    requires 0.0 <= r < 1.0
    requires |ndviSeries| > 0 && YieldWeatherTemperature(weather).Some?
    ensures var x := ExpectedYield(ndviSeries, soil, YieldWeatherTemperature(weather).value, weather, crop);
      var y := PredictYield(ndviSeries, soil, weather, crop, r).value.predictedYield;
      && (x >= 0.0 ==> 0.9 * x <= y <= 1.1 * x)
      && (x > 0.0 ==> y < 1.1 * x)
  {
    var x := ExpectedYield(ndviSeries, soil, YieldWeatherTemperature(weather).value, weather, crop);
    var y := PredictYield(ndviSeries, soil, weather, crop, r).value.predictedYield;
    JitterBounds(x, r, y);
  }

  // ------------------------------------------------------------------------------------------
  // Irrigation
  // ------------------------------------------------------------------------------------------

  datatype StageParams = StageParams(minMoisture: real, optimalMoisture: real, dailyEt: real)

  /** A crop's four growth-stage rows. */
  datatype CropStages = CropStages(germination: StageParams, vegetative: StageParams, reproductive: StageParams, maturity: StageParams)
  {
    /** `stages.get(stage, stages["vegetative"])` on an already lower-cased stage name. */
    function Get(stage: string): StageParams
    {
      if stage == "germination" then germination
      else if stage == "reproductive" then reproductive
      else if stage == "maturity" then maturity
      else vegetative
    }
  }

  const IrrigationTable: map<string, CropStages> := map[
    "maize" := CropStages(
      StageParams(50.0, 70.0, 2.5), StageParams(45.0, 65.0, 4.0), StageParams(55.0, 75.0, 6.0), StageParams(40.0, 60.0, 3.0)),
    "rice" := CropStages(
      StageParams(70.0, 90.0, 3.0), StageParams(80.0, 100.0, 5.0), StageParams(80.0, 100.0, 6.0), StageParams(70.0, 90.0, 4.0)),
    "default" := CropStages(
      StageParams(50.0, 70.0, 2.5), StageParams(45.0, 65.0, 4.0), StageParams(50.0, 70.0, 5.0), StageParams(40.0, 60.0, 3.0))]

  /** The crop's stage rows: the lower-cased crop's, else the "default" ones. */
  function CropStagesFor(crop: string): CropStages
  {
    var cropKey := ToLower(crop);
    if cropKey in IrrigationTable then IrrigationTable[cropKey] else IrrigationTable["default"]
  }

  /** The crop's stage rows and in them the lower-cased stage. */
  function StageParamsFor(crop: string, stage: string): StageParams
  {
    CropStagesFor(crop).Get(ToLower(stage))
  }

  /** An unknown growth stage falls back to the crop's own vegetative row. */
  lemma UnknownStageUsesVegetative(crop: string, stage: string)
    requires ToLower(stage) !in {"germination", "vegetative", "reproductive", "maturity"}
    ensures StageParamsFor(crop, stage) == StageParamsFor(crop, "vegetative")
  {
    ToLowerOfLowerCase("vegetative");
    GetOtherStage(CropStagesFor(crop), ToLower(stage));
  }

  lemma GetOtherStage(rows: CropStages, key: string)
    requires key !in {"germination", "reproductive", "maturity"}
    ensures rows.Get(key) == rows.vegetative
  {
  }

  /** Every stage row has its minimum below its optimum and a positive daily evapotranspiration. */
  lemma StageParamsWellFormed(crop: string, stage: string)
    ensures var p := StageParamsFor(crop, stage);
      p.minMoisture < p.optimalMoisture && p.dailyEt > 0.0
  {
  }

  /** Ordered by urgency. */
  datatype IrrigationStatus = NotNeeded | NeededLater | NeededSoon | Urgent

  datatype Priority = PriorityLow | PriorityMedium | PriorityHigh

  function Urgency(s: IrrigationStatus): nat
  {
    match s
    case NotNeeded => 0
    case NeededLater => 1
    case NeededSoon => 2
    case Urgent => 3
  }

  datatype IrrigationAdvice = IrrigationAdvice(
    cropType: string,
    cropStage: string,
    currentSoilMoisture: real,
    optimalSoilMoisture: real,
    status: IrrigationStatus,
    amount: real,
    daysUntilIrrigation: nat,
    expectedRain: real,
    expectedEt: real,
    priority: Priority)

  /** Rain expected over the first three forecast days (`rain` defaults to 0). */
  function ExpectedRain(forecast: seq<WeatherDay>): real
  {
    Sum(Rains(Prefix(forecast, 3)))
  }

  /** (optimal - moisture) + 3 days of evapotranspiration - expected rain. */
  function ExpectedDeficit(moisture: real, rain: real, p: StageParams): real
  {
    (p.optimalMoisture - moisture) + p.dailyEt * 3.0 - rain
  }

  function Decide(moisture: real, deficit: real, p: StageParams): IrrigationStatus
  {
    if deficit <= 0.0 then NotNeeded
    else if moisture < p.minMoisture then Urgent
    else if deficit > 15.0 then NeededSoon
    else NeededLater
  }

  /** The three-day irrigation decision for the crop's growth stage. */
  function PredictIrrigationNeeds(moisture: real, forecast: seq<WeatherDay>, crop: string, stage: string): (a: IrrigationAdvice)
    ensures var p := StageParamsFor(crop, stage);
      var deficit := ExpectedDeficit(moisture, ExpectedRain(forecast), p);
      && a.status == Decide(moisture, deficit, p)
      && a.amount >= 0.0
      && (a.amount == 0.0 <==> a.status == NotNeeded)
      && (a.status != NotNeeded ==> a.amount == 0.1 * deficit)
      && (a.status == Urgent ==> moisture < p.minMoisture)
      && (a.priority == PriorityHigh <==> a.status == Urgent)
      && (a.priority == PriorityMedium <==> a.status == NeededSoon)
      && a.daysUntilIrrigation == 3 - Urgency(a.status)
  {
    var p := StageParamsFor(crop, stage);
    var rain := ExpectedRain(forecast);
    var deficit := ExpectedDeficit(moisture, rain, p);
    var status := Decide(moisture, deficit, p);
    var amount := if status == NotNeeded then 0.0 else deficit * 0.1;
    var plan: (nat, Priority) := match status
      case NotNeeded => (3, PriorityLow)
      case Urgent => (0, PriorityHigh)
      case NeededSoon => (1, PriorityMedium)
      case NeededLater => (2, PriorityLow);
    IrrigationAdvice(crop, stage, moisture, p.optimalMoisture, status, amount, plan.0, rain, p.dailyEt * 3.0, plan.1)
  }

  /** Wetter soil never makes the decision more urgent. */
  lemma IrrigationMonotoneInMoisture(m1: real, m2: real, forecast: seq<WeatherDay>, crop: string, stage: string)
    requires m1 <= m2
    ensures Urgency(PredictIrrigationNeeds(m2, forecast, crop, stage).status)
         <= Urgency(PredictIrrigationNeeds(m1, forecast, crop, stage).status)
  {
  }

  /** Only the first three forecast days matter. */
  lemma IrrigationUsesThreeDays(moisture: real, forecast: seq<WeatherDay>, crop: string, stage: string)
    ensures PredictIrrigationNeeds(moisture, forecast, crop, stage) == PredictIrrigationNeeds(moisture, Prefix(forecast, 3), crop, stage)
  {
    assert Prefix(Prefix(forecast, 3), 3) == Prefix(forecast, 3);
  }

  // ------------------------------------------------------------------------------------------
  // Pests and diseases
  // ------------------------------------------------------------------------------------------

  datatype PestCondition = PestCondition(
    name: string,
    tempRange: (real, real),
    humidityRange: (real, real),
    rainThreshold: real,
    ndviThreshold: real)

  const PestTable: map<string, seq<PestCondition>> := map[
    "maize" := [
      PestCondition("Fall Armyworm", (20.0, 32.0), (60.0, 95.0), 5.0, 0.6),
      PestCondition("Maize Streak Virus", (25.0, 35.0), (70.0, 100.0), 0.0, 0.5),
      PestCondition("Gray Leaf Spot", (22.0, 30.0), (85.0, 100.0), 10.0, 0.55)],
    "rice" := [
      PestCondition("Rice Blast", (24.0, 30.0), (85.0, 100.0), 5.0, 0.6),
      PestCondition("Brown Plant Hopper", (25.0, 32.0), (70.0, 95.0), 0.0, 0.65)],
    "default" := [
      PestCondition("Aphids", (20.0, 30.0), (60.0, 90.0), 0.0, 0.6),
      PestCondition("Fungal Diseases", (18.0, 28.0), (80.0, 100.0), 5.0, 0.55)]]

  function PestConditionsFor(crop: string): seq<PestCondition>
  {
    var key := ToLower(crop);
    if key in PestTable then PestTable[key] else PestTable["default"]
  }

  /** The weather of the (at most five) forecast days the risk model reads. */
  datatype ForecastSummary = ForecastSummary(
    avgTemperature: real,
    maxTemperature: real,
    minTemperature: real,
    avgHumidity: real,
    maxHumidity: real,
    totalRainfall: real,
    rainyDays: nat)

  /**
   * Every day must carry `temperature.day`, `.max`, `.min` and `humidity`, and there must be a day
   * (`max([])` fails); rain defaults to 0 and a rainy day has more than 1 mm.
   */
  function SummarizeForecast(days: seq<WeatherDay>): (s: Option<ForecastSummary>)
    ensures s.Some? <==> |days| > 0 && forall i :: 0 <= i < |days| ==>
      DayTemperature(days[i]).Some? && MaxTemperature(days[i]).Some? && MinTemperature(days[i]).Some? && days[i].humidity.Some?
    ensures s.Some? ==> s.value.avgHumidity <= s.value.maxHumidity && s.value.rainyDays <= |days|
    ensures s.Some? ==>
      && AllPresent(DayTemperatures(days)).Some? && AllPresent(MaxTemperatures(days)).Some?
      && AllPresent(MinTemperatures(days)).Some? && AllPresent(Humidities(days)).Some?
    ensures s.Some? ==>
      && s.value.avgTemperature == Mean(AllPresent(DayTemperatures(days)).value)
      && s.value.maxTemperature == Max(AllPresent(MaxTemperatures(days)).value)
      && s.value.minTemperature == Min(AllPresent(MinTemperatures(days)).value)
      && s.value.avgHumidity == Mean(AllPresent(Humidities(days)).value)
      && s.value.maxHumidity == Max(AllPresent(Humidities(days)).value)
      && s.value.totalRainfall == Sum(Rains(days))
      && s.value.rainyDays == CountAbove(Rains(days), 1.0)
  {
    if |days| == 0 then None
    else
      match (AllPresent(DayTemperatures(days)), AllPresent(MaxTemperatures(days)), AllPresent(MinTemperatures(days)), AllPresent(Humidities(days)))
      case (Some(temps), Some(maxes), Some(mins), Some(hums)) =>
        MeanBetweenMinAndMax(hums);
        Some(ForecastSummary(Mean(temps), Max(maxes), Min(mins), Mean(hums), Max(hums), Sum(Rains(days)), CountAbove(Rains(days), 1.0)))
      case _ => None
  }

  datatype RiskLevel = Low | Medium | High

  function LevelRank(l: RiskLevel): nat
  {
    match l
    case Low => 0
    case Medium => 1
    case High => 2
  }

  datatype RiskFactors = RiskFactors(temperature: bool, humidity: bool, rainfall: bool, cropHealth: bool)

  datatype PestRisk = PestRisk(
    pestDisease: string,
    riskLevel: RiskLevel,
    riskScore: nat,
    factors: RiskFactors,
    recommendations: string)

  function FactorsFor(c: PestCondition, w: ForecastSummary, ndvi: real): RiskFactors
  {
    RiskFactors(
      c.tempRange.0 <= w.avgTemperature <= c.tempRange.1,
      c.humidityRange.0 <= w.maxHumidity <= c.humidityRange.1,
      w.totalRainfall >= c.rainThreshold,
      ndvi < c.ndviThreshold)
  }

  /** 30 for temperature, 30 for humidity, 20 for rainfall, 20 for crop health. */
  function RiskScore(f: RiskFactors): (score: nat)
    ensures score in {0, 20, 30, 40, 50, 60, 70, 80, 100}
  {
    (if f.temperature then 30 else 0) + (if f.humidity then 30 else 0)
      + (if f.rainfall then 20 else 0) + (if f.cropHealth then 20 else 0)
  }

  function LevelFor(score: nat): (l: RiskLevel)
  {
    if score >= 80 then High else if score >= 50 then Medium else Low
  }

  /**
   * High risk needs both the temperature and the humidity factor plus one more; a risk is surfaced
   * (score at least 50) iff temperature or humidity holds together with some second factor.
   */
  lemma RiskLevelByFactors(f: RiskFactors)
    ensures LevelFor(RiskScore(f)) == High <==> f.temperature && f.humidity && (f.rainfall || f.cropHealth)
    ensures RiskScore(f) >= 50 <==>
      (f.temperature || f.humidity) && ((f.temperature && f.humidity) || f.rainfall || f.cropHealth)
    ensures LevelFor(RiskScore(f)) == Medium <==> 50 <= RiskScore(f) < 80
  {
  }

  function Assess(c: PestCondition, w: ForecastSummary, ndvi: real): (risk: PestRisk)
  {
    var f := FactorsFor(c, w, ndvi);
    var score := RiskScore(f);
    PestRisk(c.name, LevelFor(score), score, f, PestRecommendation(c.name, LevelFor(score)))
  }

  /** The assessments scoring at least 50, in table order. */
  function Surfaced(conds: seq<PestCondition>, w: ForecastSummary, ndvi: real): (risks: seq<PestRisk>)
  {
    if conds == [] then []
    else
      var risk := Assess(conds[|conds| - 1], w, ndvi);
      Surfaced(conds[..|conds| - 1], w, ndvi) + (if risk.riskScore >= 50 then [risk] else [])
  }

  lemma {:induction false} SurfacedAreMediumOrHigh(conds: seq<PestCondition>, w: ForecastSummary, ndvi: real)
    ensures forall i :: 0 <= i < |Surfaced(conds, w, ndvi)| ==>
      Surfaced(conds, w, ndvi)[i].riskScore >= 50 && Surfaced(conds, w, ndvi)[i].riskLevel != Low
    ensures |Surfaced(conds, w, ndvi)| <= |conds|
  {
    if conds != [] {
      SurfacedAreMediumOrHigh(conds[..|conds| - 1], w, ndvi);
    }
  }

  function ScoreOf(r: PestRisk): real
  {
    r.riskScore as real
  }

  /** Builds the surfaced list condition by condition, then sorts it by score, highest first. */
  method AssessConditions(conds: seq<PestCondition>, w: ForecastSummary, ndvi: real) returns (risks: seq<PestRisk>)
    ensures risks == SortByKeyDescending(Surfaced(conds, w, ndvi), ScoreOf)
  {
    risks := [];
    var i := 0;
    while i < |conds|
      invariant 0 <= i <= |conds|
      invariant risks == Surfaced(conds[..i], w, ndvi)
    {
      var risk := Assess(conds[i], w, ndvi);
      if risk.riskScore >= 50 {
        risks := risks + [risk];
      }
      assert conds[..i + 1][..i] == conds[..i];
      i := i + 1;
    }
    assert conds[..|conds|] == conds;
    risks := SortByKeyDescending(risks, ScoreOf);
  }

  /** The highest level present: High if any is High, else Medium if any is Medium, else Low. */
  function OverallRisk(risks: seq<PestRisk>): (l: RiskLevel)
    ensures forall i :: 0 <= i < |risks| ==> LevelRank(risks[i].riskLevel) <= LevelRank(l)
    ensures l != Low ==> exists i :: 0 <= i < |risks| && risks[i].riskLevel == l
  {
    if exists i :: 0 <= i < |risks| && risks[i].riskLevel == High then High
    else if exists i :: 0 <= i < |risks| && risks[i].riskLevel == Medium then Medium
    else Low
  }

  datatype PestAssessment = PestAssessment(
    cropType: string,
    overallRisk: RiskLevel,
    weatherConditions: ForecastSummary,
    cropHealthNdvi: real,
    specificRisks: seq<PestRisk>)

  /** Risk list sorted highest score first: its head carries the overall level. */
  lemma {:induction false} OverallIsHead(risks: seq<PestRisk>)
    requires forall i :: 0 <= i < |risks| ==> risks[i].riskLevel == LevelFor(risks[i].riskScore)
    requires forall i, j :: 0 <= i < j < |risks| ==> risks[i].riskScore >= risks[j].riskScore
    ensures OverallRisk(risks) == if risks == [] then Low else risks[0].riskLevel
  {
    if risks != [] {
      var l := OverallRisk(risks);
      assert LevelRank(risks[0].riskLevel) <= LevelRank(l);
      if l != Low {
        var k :| 0 <= k < |risks| && risks[k].riskLevel == l;
        assert k == 0 || risks[0].riskScore >= risks[k].riskScore;
      } else {
        assert risks[0].riskLevel == Low;
      }
    }
  }

  lemma {:induction false} SurfacedLevels(conds: seq<PestCondition>, w: ForecastSummary, ndvi: real)
    ensures forall i :: 0 <= i < |Surfaced(conds, w, ndvi)| ==>
      Surfaced(conds, w, ndvi)[i].riskLevel == LevelFor(Surfaced(conds, w, ndvi)[i].riskScore)
  {
    if conds != [] {
      SurfacedLevels(conds[..|conds| - 1], w, ndvi);
    }
  }

  /**
   * What the sorted list promises: it holds exactly the surfaced assessments, all scoring at least
   * 50, highest score first, with equal scores in table order, and its head carries the overall level.
   */
  lemma RankedRisks(conds: seq<PestCondition>, w: ForecastSummary, ndvi: real)
    ensures var surfaced := Surfaced(conds, w, ndvi);
      var risks := SortByKeyDescending(surfaced, ScoreOf);
      && multiset(risks) == multiset(surfaced)
      && (forall i :: 0 <= i < |risks| ==> risks[i].riskScore >= 50)
      && (forall i, j :: 0 <= i < j < |risks| ==> risks[i].riskScore >= risks[j].riskScore)
      && (forall k :: WithKey(risks, ScoreOf, k) == WithKey(surfaced, ScoreOf, k))
      && OverallRisk(risks) == (if risks == [] then Low else risks[0].riskLevel)
  {
    SurfacedAreMediumOrHigh(conds, w, ndvi);
    SurfacedLevels(conds, w, ndvi);
    RankedFrom(Surfaced(conds, w, ndvi));
  }

  /** Sorting any list of leveled risks scoring at least 50 keeps them, orders them and heads them by the overall level. */
  lemma RankedFrom(surfaced: seq<PestRisk>)
    requires forall i :: 0 <= i < |surfaced| ==>
      surfaced[i].riskScore >= 50 && surfaced[i].riskLevel == LevelFor(surfaced[i].riskScore)
    ensures var risks := SortByKeyDescending(surfaced, ScoreOf);
      && multiset(risks) == multiset(surfaced)
      && (forall i :: 0 <= i < |risks| ==> risks[i].riskScore >= 50)
      && (forall i, j :: 0 <= i < j < |risks| ==> risks[i].riskScore >= risks[j].riskScore)
      && (forall k :: WithKey(risks, ScoreOf, k) == WithKey(surfaced, ScoreOf, k))
      && OverallRisk(risks) == (if risks == [] then Low else risks[0].riskLevel)
  {
    var risks := SortByKeyDescending(surfaced, ScoreOf);
    SortByKeyDescendingOrdered(surfaced, ScoreOf);
    assert forall i, j :: 0 <= i < j < |risks| ==> ScoreOf(risks[i]) >= ScoreOf(risks[j]);
    forall k
      ensures WithKey(risks, ScoreOf, k) == WithKey(surfaced, ScoreOf, k)
    {
      SortByKeyDescendingStable(surfaced, ScoreOf, k);
    }
    forall i | 0 <= i < |risks|
      ensures risks[i].riskScore >= 50 && risks[i].riskLevel == LevelFor(risks[i].riskScore)
    {
      assert risks[i] in multiset(surfaced);
    }
    OverallIsHead(risks);
  }

  /**
   * The pest/disease assessment over the first five forecast days: None when the forecast lacks a
   * required key or is empty; otherwise the ranked surfaced risks and their overall level.
   */
  method PredictPestDiseaseRisk(forecast: seq<WeatherDay>, ndvi: real, crop: string) returns (res: Option<PestAssessment>)
    ensures res.None? <==> SummarizeForecast(Prefix(forecast, 5)).None?
    ensures res.Some? ==>
      var surfaced := Surfaced(PestConditionsFor(crop), res.value.weatherConditions, ndvi);
      && res.value.weatherConditions == SummarizeForecast(Prefix(forecast, 5)).value
      && res.value.specificRisks == SortByKeyDescending(surfaced, ScoreOf)
      && res.value.overallRisk == OverallRisk(res.value.specificRisks)
  {
    var summary := SummarizeForecast(Prefix(forecast, 5));
    if summary.None? {
      return None;
    }
    var risks := AssessConditions(PestConditionsFor(crop), summary.value, ndvi);
    res := Some(PestAssessment(crop, OverallRisk(risks), summary.value, ndvi, risks));
  }

  // ------------------------------------------------------------------------------------------
  // Recommendations
  // ------------------------------------------------------------------------------------------

  /** The (High, Medium) advice per pest or disease. */
  const PestAdvice: map<string, (string, string)> := map[
    "Fall Armyworm" := (
      "Immediate scouting and application of appropriate insecticides. Consider biological controls like Bacillus thuringiensis.",
      "Regular scouting for early signs of infestation. Prepare for possible treatment."),
    "Maize Streak Virus" := (
      "Control leafhoppers with appropriate insecticides. Remove infected plants to prevent spread.",
      "Monitor for leafhoppers and symptoms. Consider preventive insecticide application."),
    "Gray Leaf Spot" := (
      "Apply fungicide treatment. Consider crop rotation in future seasons.",
      "Monitor for symptoms. Plan for fungicide application if conditions worsen."),
    "Rice Blast" := (
      "Apply fungicide treatment. Manage water levels to reduce humidity in the field.",
      "Monitor for symptoms. Ensure balanced fertilization to improve plant resistance."),
    "Brown Plant Hopper" := (
      "Apply appropriate insecticides. Drain fields intermittently to disrupt the pest's lifecycle.",
      "Regular field scouting. Consider preventive insecticide application."),
    "Aphids" := (
      "Apply insecticidal soap or neem oil. Introduce natural predators if available.",
      "Monitor population levels. Prepare for treatment if populations increase."),
    "Fungal Diseases" := (
      "Apply appropriate fungicide. Improve air circulation around plants if possible.",
      "Monitor for symptoms. Avoid overhead irrigation to reduce leaf wetness.")]

  const DefaultAdvice: (string, string) := (
    "Consult with local agricultural extension officer for appropriate treatment options.",
    "Monitor closely for symptoms and prepare for possible treatment.")

  const FallbackAdvice: string := "Monitor for symptoms and signs of infestation."

  /** The advice for a pest at a level: its own row, else the default row; a Low level has no entry. */
  function PestRecommendation(name: string, level: RiskLevel): (text: string)
    ensures text != ""
    ensures level == Low ==> text == FallbackAdvice
    ensures level != Low && name !in PestAdvice ==> text in {DefaultAdvice.0, DefaultAdvice.1}
  {
    var advice := if name in PestAdvice then PestAdvice[name] else DefaultAdvice;
    match level
    case High => advice.0
    case Medium => advice.1
    case Low => FallbackAdvice
  }

  /** Every pest the risk tables can report has advice of its own; the default advice is never used. */
  lemma EveryPestHasAdvice(crop: string)
    ensures forall i :: 0 <= i < |PestConditionsFor(crop)| ==> PestConditionsFor(crop)[i].name in PestAdvice
  {
  }
}
