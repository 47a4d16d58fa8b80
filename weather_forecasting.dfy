/**
 * Decisions drawn from a supplied weather forecast: the three-day irrigation check against a
 * crop's moisture thresholds, and the planting recommendation that scores each candidate crop's
 * temperature and rain suitability over the week and ranks the crops. Crop tables are looked up
 * by the exact crop name. Fetching the forecast is not part of this model: it is a parameter.
 */
module WeatherForecasting {
  import opened Wrappers
  import opened Text
  import opened Records
  import opened Stats
  import opened Ranking

  // ------------------------------------------------------------------------------------------
  // Irrigation
  // ------------------------------------------------------------------------------------------

  datatype MoistureParams = MoistureParams(minMoisture: real, optimalMoisture: real, maxMoisture: real)

  const MoistureTable: map<string, MoistureParams> := map[
    "maize" := MoistureParams(40.0, 60.0, 80.0), "rice" := MoistureParams(60.0, 80.0, 100.0),
    "sorghum" := MoistureParams(35.0, 55.0, 75.0), "millet" := MoistureParams(30.0, 50.0, 70.0),
    "cassava" := MoistureParams(35.0, 55.0, 75.0), "yam" := MoistureParams(45.0, 65.0, 85.0),
    "sweet_potato" := MoistureParams(40.0, 60.0, 80.0), "groundnut" := MoistureParams(35.0, 55.0, 75.0),
    "cowpea" := MoistureParams(30.0, 50.0, 70.0), "soybean" := MoistureParams(40.0, 60.0, 80.0),
    "default" := MoistureParams(40.0, 60.0, 80.0)]

  function MoistureParamsFor(crop: string): (p: MoistureParams)
    ensures p.minMoisture < p.optimalMoisture < p.maxMoisture
    ensures crop !in MoistureTable ==> p == MoistureParams(40.0, 60.0, 80.0)
  {
    if crop in MoistureTable then MoistureTable[crop] else MoistureTable["default"]
  }

  datatype IrrigationStatus = Urgent | IrrigationRecommended | Excess | Sufficient

  function IrrigationText(s: IrrigationStatus): string
  {
    match s
    case Urgent => "Urgent irrigation needed. Soil moisture is below the minimum threshold."
    case IrrigationRecommended => "Irrigation recommended. Soil moisture is below optimal level and insufficient rainfall is expected."
    case Excess => "Excess soil moisture. No irrigation needed, consider drainage if available."
    case Sufficient => "Sufficient soil moisture. No irrigation needed at this time."
  }

  /**
   * The three-day outlook. `evapotranspiration` and `waterBalance` are None when the forecast is
   * empty: the source's mean of no temperatures is NaN, and every comparison with it is false.
   */
  datatype IrrigationAnalysis = IrrigationAnalysis(
    status: IrrigationStatus,
    needed: bool,
    recommendation: string,
    precipitation: real,
    evapotranspiration: Option<real>,
    waterBalance: Option<real>,
    currentMoisture: real,
    optimalMoisture: real)

  /** Checked in order: below the minimum; below the optimum with a water deficit; above the maximum. */
  function IrrigationStatusOf(moisture: real, balance: Option<real>, p: MoistureParams): (s: IrrigationStatus)
    ensures s == Urgent <==> moisture < p.minMoisture
    ensures s == IrrigationRecommended <==>
      p.minMoisture <= moisture < p.optimalMoisture && balance.Some? && balance.value < 0.0
    ensures s == Excess <==>
      moisture > p.maxMoisture && !(moisture < p.minMoisture)
      && !(moisture < p.optimalMoisture && balance.Some? && balance.value < 0.0)
  {
    if moisture < p.minMoisture then Urgent
    else if moisture < p.optimalMoisture && balance.Some? && balance.value < 0.0 then IrrigationRecommended
    else if moisture > p.maxMoisture then Excess
    else Sufficient
  }

  /**
   * Irrigation needs over the first three forecast days: rain counts only where reported, the
   * daily evapotranspiration is 0.5 x (mean day temperature / 20), and the water balance is the
   * rain minus three days of it. A day among the three without a temperature object carrying a
   * `day` value makes the analysis fail.
   */
  function AnalyzeIrrigationNeeds(days: seq<WeatherDay>, moisture: real, crop: string): (a: Option<IrrigationAnalysis>)
    ensures a.None? <==> AllPresent(DayTemperatures(Prefix(days, 3))).None?
    ensures a.Some? ==> (a.value.needed <==> a.value.status in {Urgent, IrrigationRecommended})
    ensures a.Some? ==> a.value.status == IrrigationStatusOf(moisture, a.value.waterBalance, MoistureParamsFor(crop))
    ensures a.Some? ==> a.value.precipitation == Sum(Rains(Prefix(days, 3)))
    ensures a.Some? ==> (a.value.waterBalance.None? <==> days == [])
    ensures a.Some? ==> (a.value.evapotranspiration.None? <==> days == [])
    ensures a.Some? && a.value.waterBalance.Some? ==>
      a.value.waterBalance.value == a.value.precipitation - a.value.evapotranspiration.value
    ensures a.Some? && days != [] ==>
      a.value.evapotranspiration == Some(3.0 * (0.5 * (Mean(AllPresent(DayTemperatures(Prefix(days, 3))).value) / 20.0)))
  {
    AnalyzeFirstDays(Prefix(days, 3), moisture, crop)
  }

  /** The analysis on the days it reads, the first three of the forecast. */
  function AnalyzeFirstDays(first: seq<WeatherDay>, moisture: real, crop: string): (a: Option<IrrigationAnalysis>)
    ensures a.None? <==> AllPresent(DayTemperatures(first)).None?
    ensures a.Some? ==> (a.value.needed <==> a.value.status in {Urgent, IrrigationRecommended})
    ensures a.Some? ==> a.value.status == IrrigationStatusOf(moisture, a.value.waterBalance, MoistureParamsFor(crop))
    ensures a.Some? ==> a.value.precipitation == Sum(Rains(first))
    ensures a.Some? ==> (a.value.waterBalance.None? <==> first == [])
    ensures a.Some? ==> (a.value.evapotranspiration.None? <==> first == [])
    ensures a.Some? && a.value.waterBalance.Some? ==>
      a.value.waterBalance.value == a.value.precipitation - a.value.evapotranspiration.value
    ensures a.Some? && first != [] ==>
      a.value.evapotranspiration == Some(3.0 * (0.5 * (Mean(AllPresent(DayTemperatures(first)).value) / 20.0)))
  {
    match AllPresent(DayTemperatures(first))
    case None => None
    case Some(temps) =>
      var p := MoistureParamsFor(crop);
      var precipitation := Sum(Rains(first));
      var et: Option<real> := if temps == [] then None else Some(0.5 * (Mean(temps) / 20.0) * 3.0);
      var balance: Option<real> := if temps == [] then None else Some(precipitation - et.value);
      var status := IrrigationStatusOf(moisture, balance, p);
      Some(IrrigationAnalysis(
        status, status == Urgent || status == IrrigationRecommended, IrrigationText(status),
        precipitation, et, balance, moisture, p.optimalMoisture))
  }

  /** Days after the third never change the irrigation analysis. */
  lemma IrrigationUsesFirstThreeDays(days: seq<WeatherDay>, later: seq<WeatherDay>, moisture: real, crop: string)
    requires |days| >= 3
    ensures AnalyzeIrrigationNeeds(days + later, moisture, crop) == AnalyzeIrrigationNeeds(days, moisture, crop)
  {
    assert Prefix(days + later, 3) == Prefix(days, 3);
  }

  /**
   * The decision only moves towards more irrigation as the soil dries: at a lower moisture the
   * need never disappears.
   */
  lemma IrrigationNeedMonotone(days: seq<WeatherDay>, m1: real, m2: real, crop: string)
    requires m1 <= m2
    requires AnalyzeIrrigationNeeds(days, m2, crop).Some?
    ensures AnalyzeIrrigationNeeds(days, m1, crop).Some?
    ensures AnalyzeIrrigationNeeds(days, m2, crop).value.needed ==> AnalyzeIrrigationNeeds(days, m1, crop).value.needed
  {
    BalanceIgnoresMoisture(Prefix(days, 3), m1, m2, crop);
  }

  /** The water balance depends on the forecast alone, not on the soil moisture. */
  lemma BalanceIgnoresMoisture(first: seq<WeatherDay>, m1: real, m2: real, crop: string)
    ensures AnalyzeFirstDays(first, m1, crop).Some? == AnalyzeFirstDays(first, m2, crop).Some?
    ensures AnalyzeFirstDays(first, m1, crop).Some? ==>
      AnalyzeFirstDays(first, m1, crop).value.waterBalance == AnalyzeFirstDays(first, m2, crop).value.waterBalance
  {
  }

  /** Without forecast days there is no water balance, so irrigation is needed only below the minimum. */
  lemma EmptyForecastNeedsOnlyBelowMinimum(moisture: real, crop: string)
    ensures AnalyzeIrrigationNeeds([], moisture, crop).Some?
    ensures AnalyzeIrrigationNeeds([], moisture, crop).value.needed <==> moisture < MoistureParamsFor(crop).minMoisture
  {
    var none: seq<WeatherDay> := [];
    assert Prefix(none, 3) == [];
  }

  // ------------------------------------------------------------------------------------------
  // Planting
  // ------------------------------------------------------------------------------------------

  datatype PlantingConditions = PlantingConditions(
    minTemp: real, optimalTemp: real, maxTemp: real, minRain: real, maxRain: real)
  {
    predicate WellFormed()
    {
      minTemp < optimalTemp < maxTemp && minRain < maxRain
    }
  }

  /** No row has an optimal rain value: see `RainSuitabilityAsWritten`. */
  const PlantingTable: map<string, PlantingConditions> := map[
    "maize" := PlantingConditions(10.0, 25.0, 35.0, 10.0, 50.0),
    "rice" := PlantingConditions(15.0, 30.0, 35.0, 20.0, 100.0),
    "sorghum" := PlantingConditions(12.0, 27.0, 38.0, 5.0, 40.0),
    "millet" := PlantingConditions(12.0, 28.0, 40.0, 5.0, 30.0),
    "cassava" := PlantingConditions(18.0, 28.0, 35.0, 10.0, 60.0),
    "yam" := PlantingConditions(20.0, 30.0, 35.0, 15.0, 70.0),
    "sweet_potato" := PlantingConditions(15.0, 24.0, 35.0, 10.0, 50.0),
    "groundnut" := PlantingConditions(15.0, 28.0, 35.0, 5.0, 40.0),
    "cowpea" := PlantingConditions(18.0, 28.0, 35.0, 5.0, 30.0),
    "soybean" := PlantingConditions(15.0, 26.0, 35.0, 10.0, 50.0)]

  lemma PlantingTableWellFormed(crop: string)
    requires crop in PlantingTable
    ensures PlantingTable[crop].WellFormed()
  {
  }

  const DefaultCrops: seq<string> := ["maize", "rice", "sorghum", "millet", "cassava"]

  /** The week's weather as the planting scores read it. */
  datatype WeatherSummary = WeatherSummary(
    avgTemp: real, minTemp: real, maxTemp: real, avgHumidity: real,
    totalPrecipitation: real, precipitationDays: nat)

  /**
   * Mean day temperature, lowest minimum, highest maximum, mean humidity, total rain (default 0)
   * and the number of days with more than 1 mm. An empty forecast, or a day missing any of the
   * temperature values or the humidity, gives None.
   */
  function SummarizeWeek(forecast: seq<WeatherDay>): (w: Option<WeatherSummary>)
    ensures w.None? <==> (forecast == [] || AllPresent(DayTemperatures(forecast)).None?
      || AllPresent(MinTemperatures(forecast)).None? || AllPresent(MaxTemperatures(forecast)).None?
      || AllPresent(Humidities(forecast)).None?)
    ensures w.Some? ==> w.value.precipitationDays <= |forecast|
    ensures w.Some? ==>
      && w.value.avgTemp == Mean(AllPresent(DayTemperatures(forecast)).value)
      && w.value.minTemp == Min(AllPresent(MinTemperatures(forecast)).value)
      && w.value.maxTemp == Max(AllPresent(MaxTemperatures(forecast)).value)
      && w.value.avgHumidity == Mean(AllPresent(Humidities(forecast)).value)
      && w.value.totalPrecipitation == Sum(Rains(forecast))
      && w.value.precipitationDays == CountAbove(Rains(forecast), 1.0)
  {
    if forecast == [] then None
    else
      match (AllPresent(DayTemperatures(forecast)), AllPresent(MinTemperatures(forecast)),
             AllPresent(MaxTemperatures(forecast)), AllPresent(Humidities(forecast)))
      case (Some(days), Some(mins), Some(maxs), Some(humidities)) =>
        var rains := Rains(forecast);
        Some(WeatherSummary(Mean(days), Min(mins), Max(maxs), Mean(humidities), Sum(rains), CountAbove(rains, 1.0)))
      case _ => None
  }

  /** The week's lowest and highest temperatures bound every day's minimum and maximum. */
  lemma SummaryBoundsEveryDay(forecast: seq<WeatherDay>)
    requires SummarizeWeek(forecast).Some?
    ensures forall i :: 0 <= i < |forecast| ==>
      && SummarizeWeek(forecast).value.minTemp <= MinTemperature(forecast[i]).value
      && MaxTemperature(forecast[i]).value <= SummarizeWeek(forecast).value.maxTemp
  {
    var w := SummarizeWeek(forecast).value;
    var mins := AllPresent(MinTemperatures(forecast)).value;
    var maxs := AllPresent(MaxTemperatures(forecast)).value;
    assert w.minTemp == Min(mins) && w.maxTemp == Max(maxs);
    forall i | 0 <= i < |forecast|
      ensures w.minTemp <= MinTemperature(forecast[i]).value && MaxTemperature(forecast[i]).value <= w.maxTemp
    {
      assert mins[i] == MinTemperatures(forecast)[i].value;
      assert maxs[i] == MaxTemperatures(forecast)[i].value;
    }
  }

  /** Python's `max(0, x)`. */
  function AtLeastZero(x: real): (y: real)
    ensures y >= 0.0 && y >= x && (y == x || y == 0.0)
  {
    if x < 0.0 then 0.0 else x
  }

  /** `max(0, 1 - distance / maxDistance)` for a non-negative distance: a score in [0, 1]. */
  function Closeness(distance: real, maxDistance: real): (s: real)
    requires distance >= 0.0 && maxDistance > 0.0
    ensures 0.0 <= s <= 1.0
    ensures s == 1.0 <==> distance == 0.0
    ensures s == 0.0 <==> distance >= maxDistance
  {
    assert distance / maxDistance >= 0.0;
    assert distance / maxDistance >= 1.0 <==> distance >= maxDistance;
    AtLeastZero(1.0 - distance / maxDistance)
  }

  /**
   * 0 when the week's minimum falls below the crop's minimum or its maximum exceeds the crop's
   * maximum; otherwise how close the mean temperature is to the crop's optimum, relative to the
   * wider side of the crop's range.
   */
  function TemperatureSuitability(w: WeatherSummary, c: PlantingConditions): (t: real)
    requires c.WellFormed()
    ensures 0.0 <= t <= 1.0
    ensures w.minTemp < c.minTemp || w.maxTemp > c.maxTemp ==> t == 0.0
    ensures t == 1.0 <==> c.minTemp <= w.minTemp && w.maxTemp <= c.maxTemp && w.avgTemp == c.optimalTemp
  {
    if w.minTemp < c.minTemp || w.maxTemp > c.maxTemp then 0.0
    else
      var maxDistance := if c.optimalTemp - c.minTemp < c.maxTemp - c.optimalTemp then c.maxTemp - c.optimalTemp else c.optimalTemp - c.minTemp;
      Closeness(Abs(w.avgTemp - c.optimalTemp), maxDistance)
  }

  /**
   * The rain score as written: outside the crop's rain range it is 0, inside it the source reads
   * the crop's `optimal_rain`, which no row defines, so the lookup fails (None).
   */
  function RainSuitabilityAsWritten(total: real, c: PlantingConditions): (r: Option<real>)
    ensures r.None? <==> c.minRain <= total <= c.maxRain
    ensures r.Some? ==> r.value == 0.0
  {
    if total < c.minRain || total > c.maxRain then Some(0.0) else None
  }

  /** The optimal rain the scoring needs: the midpoint of the crop's rain range. */
  function OptimalRain(c: PlantingConditions): (o: real)
    requires c.WellFormed()
    ensures c.minRain < o < c.maxRain
  {
    (c.minRain + c.maxRain) / 2.0
  }

  /**
   * The rain score with an optimal rain defined: 0 outside the crop's range, else how close the
   * total is to the optimum, relative to the distance from the optimum to the range end on the
   * total's side.
   */
  function RainSuitability(total: real, c: PlantingConditions): (r: real)
    requires c.WellFormed()
    ensures 0.0 <= r <= 1.0
    ensures total < c.minRain || total > c.maxRain ==> r == 0.0
    ensures r == 1.0 <==> total == OptimalRain(c)
    ensures c.minRain < total < c.maxRain ==> r > 0.0
  {
    if total < c.minRain || total > c.maxRain then 0.0
    else
      var optimal := OptimalRain(c);
      if total <= optimal then Closeness(optimal - total, optimal - c.minRain)
      else Closeness(total - optimal, c.maxRain - optimal)
  }

  datatype PlantingStatus = HighlyRecommended | Recommended | MarginallySuitable | NotRecommended

  function PlantingStatusOf(suitability: real): (s: PlantingStatus)
    ensures s == HighlyRecommended <==> suitability >= 0.7
    ensures s == Recommended <==> 0.5 <= suitability < 0.7
    ensures s == MarginallySuitable <==> 0.3 <= suitability < 0.5
    ensures s == NotRecommended <==> suitability < 0.3
  {
    if suitability >= 0.7 then HighlyRecommended
    else if suitability >= 0.5 then Recommended
    else if suitability >= 0.3 then MarginallySuitable
    else NotRecommended
  }

  /** The weighting of the two scores: temperature 0.7, rain 0.3. */
  function Suitability(t: real, r: real): (s: real)
    requires 0.0 <= t <= 1.0 && 0.0 <= r <= 1.0
    ensures 0.0 <= s <= 1.0
    ensures s == 1.0 <==> t == 1.0 && r == 1.0
  {
    0.7 * t + 0.3 * r
  }

  // ----- notes -----

  function TierNote(subject: string, score: real): string
  {
    if score < 0.3 then subject + " conditions are unfavorable."
    else if score < 0.7 then subject + " conditions are marginal."
    else subject + " conditions are favorable."
  }

  const CropNotes: map<string, string> := map[
    "maize" := "Maize requires well-drained soil with good fertility.",
    "rice" := "Rice typically requires waterlogged conditions for optimal growth.",
    "sorghum" := "Sorghum is drought-tolerant and suitable for water-limited environments.",
    "millet" := "Millet is highly drought-tolerant and suitable for sandy soils.",
    "cassava" := "Cassava is drought-tolerant once established and grows well in poor soils."]

  /** The sentences of a crop's notes: temperature, precipitation, then the crop's own, if it has one. */
  function NoteSentences(crop: string, t: real, r: real): (notes: seq<string>)
    ensures |notes| == if crop in CropNotes then 3 else 2
    ensures notes[0] == TierNote("Temperature", t) && notes[1] == TierNote("Precipitation", r)
    ensures crop in CropNotes ==> notes[2] == CropNotes[crop]
  {
    [TierNote("Temperature", t), TierNote("Precipitation", r)]
      + (if crop in CropNotes then [CropNotes[crop]] else [])
  }

  /** The notes joined by single spaces. */
  function RecommendationNotes(crop: string, t: real, r: real): (text: string)
    ensures |text| > |TierNote("Temperature", t)|
    ensures text[..|TierNote("Temperature", t)|] == TierNote("Temperature", t)
  {
    JoinStartsWithFirst(NoteSentences(crop, t, r), ' ');
    Join(NoteSentences(crop, t, r), ' ')
  }

  // ----- ranking -----

  datatype CropRecommendation = CropRecommendation(
    crop: string,
    suitabilityScore: real,
    status: PlantingStatus,
    temperatureSuitability: real,
    precipitationSuitability: real,
    notes: string)

  datatype PlantingResult = PlantingResult(weatherSummary: WeatherSummary, recommendations: seq<CropRecommendation>)

  function ScoreOf(r: CropRecommendation): real
  {
    r.suitabilityScore
  }

  /** The entry for one crop of the table. */
  function Evaluate(crop: string, w: WeatherSummary): (r: CropRecommendation)
    requires crop in PlantingTable
    ensures r.crop == crop && 0.0 <= r.suitabilityScore <= 1.0
    ensures 0.0 <= r.temperatureSuitability <= 1.0 && 0.0 <= r.precipitationSuitability <= 1.0
    ensures r.status == PlantingStatusOf(r.suitabilityScore)
    ensures r.suitabilityScore == Suitability(r.temperatureSuitability, r.precipitationSuitability)
  {
    var c := PlantingTable[crop];
    PlantingTableWellFormed(crop);
    var t := TemperatureSuitability(w, c);
    var rain := RainSuitability(w.totalPrecipitation, c);
    var s := Suitability(t, rain);
    CropRecommendation(crop, s, PlantingStatusOf(s), t, rain, RecommendationNotes(crop, t, rain))
  }

  /** One entry per candidate that the table knows, in candidate order; the others are skipped. */
  function Evaluated(crops: seq<string>, w: WeatherSummary): (rs: seq<CropRecommendation>)
    ensures |rs| <= |crops|
    ensures forall i :: 0 <= i < |rs| ==> rs[i].crop in PlantingTable && rs[i].crop in crops
    ensures forall i :: 0 <= i < |rs| ==> rs[i] == Evaluate(rs[i].crop, w)
  {
    if crops == [] then []
    else
      var last := crops[|crops| - 1];
      var rest := Evaluated(crops[..|crops| - 1], w);
      assert forall i :: 0 <= i < |rest| ==> rest[i].crop in crops by {
        forall i | 0 <= i < |rest|
          ensures rest[i].crop in crops
        {
          var j :| 0 <= j < |crops| - 1 && crops[..|crops| - 1][j] == rest[i].crop;
          assert crops[j] == rest[i].crop;
        }
      }
      rest + (if last in PlantingTable then [Evaluate(last, w)] else [])
  }

  function Candidates(cropTypes: Option<seq<string>>): seq<string>
  {
    match cropTypes
    case Some(crops) => crops
    case None => DefaultCrops
  }

  /**
   * The planting recommendation for a week's forecast: each candidate crop the table knows is
   * scored (unknown crops are skipped), and the entries are sorted by score, highest first. The
   * candidates default to maize, rice, sorghum, millet and cassava. An unreadable forecast gives None.
   */
  method GeneratePlantingRecommendation(forecast: seq<WeatherDay>, cropTypes: Option<seq<string>>)
    returns (res: Option<PlantingResult>)
    ensures res.None? <==> SummarizeWeek(forecast).None?
    ensures res.Some? ==> res.value.weatherSummary == SummarizeWeek(forecast).value
    ensures res.Some? ==> (res.value.recommendations ==
      SortByKeyDescending(Evaluated(Candidates(cropTypes), res.value.weatherSummary), ScoreOf))
  {
    var summary := SummarizeWeek(forecast);
    if summary.None? {
      return None;
    }
    var w := summary.value;
    var recommendations := EvaluateCandidates(Candidates(cropTypes), w);
    res := Some(PlantingResult(w, SortByKeyDescending(recommendations, ScoreOf)));
  }

  /** One more candidate adds its evaluation when the table knows it, and nothing otherwise. */
  lemma EvaluatedStep(crops: seq<string>, i: nat, w: WeatherSummary)
    requires i < |crops|
    ensures Evaluated(crops[..i + 1], w)
      == Evaluated(crops[..i], w) + (if crops[i] in PlantingTable then [Evaluate(crops[i], w)] else [])
  {
    assert crops[..i + 1][..i] == crops[..i];
  }

  /** The scoring loop: candidates unknown to the table are skipped. */
  method EvaluateCandidates(crops: seq<string>, w: WeatherSummary) returns (recommendations: seq<CropRecommendation>)
    ensures recommendations == Evaluated(crops, w)
  {
    recommendations := [];
    var i := 0;
    while i < |crops|
      invariant 0 <= i <= |crops|
      invariant recommendations == Evaluated(crops[..i], w)
    {
      EvaluatedStep(crops, i, w);
      if crops[i] in PlantingTable {
        recommendations := recommendations + [Evaluate(crops[i], w)];
      }
      i := i + 1;
    }
    assert crops[..|crops|] == crops;
  }

  /**
   * The ranked list holds exactly the evaluated candidates, highest score first, with equal scores
   * in candidate order, each score in [0, 1] and labelled by its tier.
   */
  lemma RankedPlantingRecommendations(crops: seq<string>, w: WeatherSummary)
    ensures var evaluated := Evaluated(crops, w);
      var ranked := SortByKeyDescending(evaluated, ScoreOf);
      && multiset(ranked) == multiset(evaluated)
      && (forall i, j :: 0 <= i < j < |ranked| ==> ranked[i].suitabilityScore >= ranked[j].suitabilityScore)
      && (forall k :: WithKey(ranked, ScoreOf, k) == WithKey(evaluated, ScoreOf, k))
      && (forall i :: 0 <= i < |ranked| ==>
            ranked[i].crop in PlantingTable && 0.0 <= ranked[i].suitabilityScore <= 1.0
            && ranked[i].status == PlantingStatusOf(ranked[i].suitabilityScore))
  {
    var evaluated := Evaluated(crops, w);
    var ranked := SortByKeyDescending(evaluated, ScoreOf);
    SortByKeyDescendingOrdered(evaluated, ScoreOf);
    forall k
      ensures WithKey(ranked, ScoreOf, k) == WithKey(evaluated, ScoreOf, k)
    {
      SortByKeyDescendingStable(evaluated, ScoreOf, k);
    }
    forall i | 0 <= i < |ranked|
      ensures ranked[i].crop in PlantingTable && 0.0 <= ranked[i].suitabilityScore <= 1.0
      ensures ranked[i].status == PlantingStatusOf(ranked[i].suitabilityScore)
    {
      assert ranked[i] in multiset(evaluated);
    }
    assert forall i, j :: 0 <= i < j < |ranked| ==> ScoreOf(ranked[i]) >= ScoreOf(ranked[j]);
  }

  // ----- the planting recommendation as written -----

  /** One candidate as written: failing when its rain score reads the missing `optimal_rain`. */
  function EvaluateAsWritten(crop: string, w: WeatherSummary): (r: Option<CropRecommendation>)
    requires crop in PlantingTable
  {
    var c := PlantingTable[crop];
    PlantingTableWellFormed(crop);
    var t := TemperatureSuitability(w, c);
    match RainSuitabilityAsWritten(w.totalPrecipitation, c)
    case None => None
    case Some(rain) =>
      var s := Suitability(t, rain);
      Some(CropRecommendation(crop, s, PlantingStatusOf(s), t, rain, RecommendationNotes(crop, t, rain)))
  }

  function EvaluatedAsWritten(crops: seq<string>, w: WeatherSummary): Option<seq<CropRecommendation>>
  {
    if crops == [] then Some([])
    else
      var last := crops[|crops| - 1];
      match EvaluatedAsWritten(crops[..|crops| - 1], w)
      case None => None
      case Some(rest) =>
        if last !in PlantingTable then Some(rest)
        else
          match EvaluateAsWritten(last, w)
          case None => None
          case Some(r) => Some(rest + [r])
  }

  /** A known crop whose rain range contains the week's total: the one whose lookup fails. */
  predicate InRainRange(crop: string, total: real)
  {
    crop in PlantingTable && PlantingTable[crop].minRain <= total <= PlantingTable[crop].maxRain
  }

  /** One candidate as written fails inside its rain range and otherwise agrees with the corrected scoring. */
  lemma EvaluateAsWrittenAgrees(crop: string, w: WeatherSummary)
    requires crop in PlantingTable
    ensures EvaluateAsWritten(crop, w).None? <==> InRainRange(crop, w.totalPrecipitation)
    ensures EvaluateAsWritten(crop, w).Some? ==> EvaluateAsWritten(crop, w).value == Evaluate(crop, w)
  {
    PlantingTableWellFormed(crop);
  }

  /** Whether some candidate's lookup fails. */
  predicate ReadsOptimalRain(crops: seq<string>, total: real)
  {
    exists i :: 0 <= i < |crops| && InRainRange(crops[i], total)
  }

  lemma ReadsOptimalRainStep(crops: seq<string>, total: real)
    requires crops != []
    ensures ReadsOptimalRain(crops, total) <==>
      (ReadsOptimalRain(crops[..|crops| - 1], total) || InRainRange(crops[|crops| - 1], total))
  {
    var init := crops[..|crops| - 1];
    if ReadsOptimalRain(crops, total) && !InRainRange(crops[|crops| - 1], total) {
      var i :| 0 <= i < |crops| && InRainRange(crops[i], total);
      assert init[i] == crops[i];
    }
    if ReadsOptimalRain(init, total) {
      var i :| 0 <= i < |init| && InRainRange(init[i], total);
      assert crops[i] == init[i];
    }
  }

  /** The planting recommendation exactly as the source computes it. */
  function PlantingRecommendationAsWritten(forecast: seq<WeatherDay>, cropTypes: Option<seq<string>>): Option<PlantingResult>
  {
    match SummarizeWeek(forecast)
    case None => None
    case Some(w) =>
      match EvaluatedAsWritten(Candidates(cropTypes), w)
      case None => None
      case Some(rs) => Some(PlantingResult(w, SortByKeyDescending(rs, ScoreOf)))
  }

  /**
   * As written, the candidates fail exactly when one of them has the week's total inside its rain
   * range; otherwise every rain score is 0 and they agree with the corrected scoring.
   */
  lemma {:induction false} EvaluatedAsWrittenFails(crops: seq<string>, w: WeatherSummary)
    ensures EvaluatedAsWritten(crops, w).None? <==> ReadsOptimalRain(crops, w.totalPrecipitation)
    ensures EvaluatedAsWritten(crops, w).Some? ==> EvaluatedAsWritten(crops, w).value == Evaluated(crops, w)
  {
    if crops != [] {
      var last := crops[|crops| - 1];
      EvaluatedAsWrittenFails(crops[..|crops| - 1], w);
      ReadsOptimalRainStep(crops, w.totalPrecipitation);
      EvaluatedStep(crops, |crops| - 1, w);
      assert crops[..|crops|] == crops;
      if last in PlantingTable {
        EvaluateAsWrittenAgrees(last, w);
      }
    }
  }

  /** The whole result as written is lost exactly when some candidate's rain lookup fails. */
  lemma RainKeyErrorDiscardsResult(forecast: seq<WeatherDay>, cropTypes: Option<seq<string>>)
    requires SummarizeWeek(forecast).Some?
    ensures PlantingRecommendationAsWritten(forecast, cropTypes).None? <==>
      ReadsOptimalRain(Candidates(cropTypes), SummarizeWeek(forecast).value.totalPrecipitation)
  {
    EvaluatedAsWrittenFails(Candidates(cropTypes), SummarizeWeek(forecast).value);
  }

  /** A single day of 25 degrees (20 to 30), 60 % humidity and 20 mm of rain. */
  const ExampleDay := WeatherDay(Some(TempDict(Some(25.0), Some(20.0), Some(30.0))), Some(60.0), Some(20.0))

  lemma ExampleWeek()
    ensures SummarizeWeek([ExampleDay]).Some? && SummarizeWeek([ExampleDay]).value.totalPrecipitation == 20.0
  {
    var forecast := [ExampleDay];
    assert Rains(forecast) == [20.0];
    assert Sum([20.0]) == 20.0 by { assert [20.0][..0] == []; }
    assert DayTemperatures(forecast) == [Some(25.0)];
    assert MinTemperatures(forecast) == [Some(20.0)];
    assert MaxTemperatures(forecast) == [Some(30.0)];
    assert Humidities(forecast) == [Some(60.0)];
  }

  /** With 20 mm in the week, maize is evaluated and its corrected rain score is 0.5. */
  lemma MaizeRainScore(w: WeatherSummary)
    requires w.totalPrecipitation == 20.0
    ensures Evaluated(["maize"], w) == [Evaluate("maize", w)]
    ensures Evaluate("maize", w).precipitationSuitability == 0.5
    ensures ReadsOptimalRain(["maize"], w.totalPrecipitation)
  {
    assert ["maize"][0] == "maize";
    assert ["maize"][..0] == [];
  }

  /**
   * The example day for maize: as written the result is lost, since 20 mm lies in maize's 10-50 mm
   * range; with the midpoint optimum (30 mm) maize's rain score is 0.5.
   */
  lemma RainKeyErrorExample()
    ensures PlantingRecommendationAsWritten([ExampleDay], Some(["maize"])).None?
    ensures SummarizeWeek([ExampleDay]).Some?
    ensures Evaluated(["maize"], SummarizeWeek([ExampleDay]).value)
      == [Evaluate("maize", SummarizeWeek([ExampleDay]).value)]
    ensures Evaluate("maize", SummarizeWeek([ExampleDay]).value).precipitationSuitability == 0.5
  {
    ExampleWeek();
    var w := SummarizeWeek([ExampleDay]).value;
    MaizeRainScore(w);
    RainKeyErrorDiscardsResult([ExampleDay], Some(["maize"]));
  }
}
