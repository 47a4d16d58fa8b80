/**
 * Feature preprocessing for the learning models: each raw payload (satellite NDVI, weather,
 * soil) becomes a set of named real features, and the three sets are flattened into a
 * fixed-order vector of 27 values. A payload the source cannot read (an exception it catches and
 * answers with `{}`) is `None` here. Each preprocessor's result is a record; `Entries()` lays out
 * the real-valued features of the dictionary the source builds. The satellite dictionary's two
 * list entries, `ndvi_values` and `ndvi_dates`, are left out of it: the feature vector never reads
 * them. The `std_*` features hold the population variance: numpy's square root is not modelled.
 */
module ModelUtils {
  import opened Wrappers
  import opened Records
  import opened Stats
  import opened EdgeModels

  type Features = map<string, real>

  /** Mean, minimum and maximum of one quantity. */
  datatype Spread = Spread(mean: real, min: real, max: real)
  {
    predicate Ordered() { min <= mean <= max }
  }

  function SpreadOf(xs: seq<real>): (s: Spread)
    requires |xs| > 0
    ensures s.Ordered()
    ensures s.min in xs && s.max in xs
    ensures forall i :: 0 <= i < |xs| ==> s.min <= xs[i] <= s.max
    ensures s.mean == Mean(xs)
  {
    MeanBetweenMinAndMax(xs);
    Spread(Mean(xs), Min(xs), Max(xs))
  }

  /** A single value is its own mean, minimum and maximum. */
  function Point(x: real): (s: Spread)
    ensures s.Ordered() && s.min == s.max
    ensures s.mean == x
  {
    Spread(x, x, x)
  }

  // ------------------------------------------------------------------------------------------
  // Satellite
  // ------------------------------------------------------------------------------------------

  /** One entry of `ndvi_series`: both keys are read with `[...]`, so both are required. */
  datatype NdviPoint = NdviPoint(averageNdvi: Option<real>, date: Option<string>)

  datatype SatelliteData = SatelliteData(ndviSeries: Option<seq<NdviPoint>>, averageNdvi: Option<real>)

  datatype SatelliteFeatures = SatelliteFeatures(ndvi: Spread, std: real, trend: real)
  {
    /** The real-valued satellite features (the list entries `ndvi_values`, `ndvi_dates` excluded). */
    function Entries(): (f: Features)
      ensures f.Keys == SatelliteKeys
    {
      map["mean_ndvi" := ndvi.mean, "min_ndvi" := ndvi.min, "max_ndvi" := ndvi.max, "std_ndvi" := std, "ndvi_trend" := trend]
    }
  }

  const SatelliteKeys: set<string> := {"mean_ndvi", "min_ndvi", "max_ndvi", "std_ndvi", "ndvi_trend"}

  /** The list-valued entries the satellite preprocessor also writes when it has a series. */
  const SatelliteListKeys: set<string> := {"ndvi_values", "ndvi_dates"}

  predicate ReadableSeries(series: seq<NdviPoint>)
  {
    forall i :: 0 <= i < |series| ==> series[i].averageNdvi.Some? && series[i].date.Some?
  }

  function NdviValues(series: seq<NdviPoint>): (vs: seq<real>)
    requires ReadableSeries(series)
    ensures |vs| == |series| && forall i :: 0 <= i < |series| ==> vs[i] == series[i].averageNdvi.value
  {
    seq(|series|, i requires 0 <= i < |series| => series[i].averageNdvi.value)
  }

  /**
   * NDVI statistics: over the series when there is one (its trend the least-squares slope, 0 for a
   * single point), else the single `average_ndvi` value (default 0) with no spread and no trend.
   * An empty series or an entry without `average_ndvi` or `date` gives no features.
   */
  function PreprocessSatellite(s: SatelliteData): (f: Option<SatelliteFeatures>)
    ensures f.None? <==> s.ndviSeries.Some? && (s.ndviSeries.value == [] || !ReadableSeries(s.ndviSeries.value))
    ensures f.Some? ==> f.value.ndvi.Ordered() && f.value.std >= 0.0
    ensures s.ndviSeries.None? ==> f == Some(SatelliteFeatures(Point(s.averageNdvi.GetOr(0.0)), 0.0, 0.0))
    ensures f.Some? && s.ndviSeries.Some? ==>
      f.value.ndvi == SpreadOf(NdviValues(s.ndviSeries.value)) && f.value.std == Variance(NdviValues(s.ndviSeries.value))
  {
    match s.ndviSeries
    case None =>
      Some(SatelliteFeatures(Point(s.averageNdvi.GetOr(0.0)), 0.0, 0.0))
    case Some(series) =>
      if series == [] || !ReadableSeries(series) then None
      else
        var vs := NdviValues(series);
        VarianceNonNegative(vs);
        Some(SatelliteFeatures(SpreadOf(vs), Variance(vs), if |vs| > 1 then Slope(vs) else 0.0))
  }

  /**
   * The trend of a series lying on a + b*i is b (0 for a single point): in particular a constant
   * series has trend 0.
   */
  lemma TrendOfLinearSeries(s: SatelliteData, a: real, b: real)
    requires s.ndviSeries.Some? && |s.ndviSeries.value| > 0
    requires forall i :: 0 <= i < |s.ndviSeries.value| ==>
      s.ndviSeries.value[i].date.Some? && s.ndviSeries.value[i].averageNdvi == Some(a + b * (i as real))
    ensures PreprocessSatellite(s).Some?
    ensures PreprocessSatellite(s).value.trend == if |s.ndviSeries.value| > 1 then b else 0.0
  {
    var series := s.ndviSeries.value;
    var n := |series|;
    assert NdviValues(series) == Linear(a, b, n);
    if n > 1 {
      SlopeOfLinear(a, b, n);
    }
  }

  /** A one-point series and the bare `average_ndvi` of the same value give the same features. */
  lemma OnePointSeriesMatchesSingleValue(p: NdviPoint, average: Option<real>)
    requires p.averageNdvi.Some? && p.date.Some?
    ensures PreprocessSatellite(SatelliteData(Some([p]), average))
         == PreprocessSatellite(SatelliteData(None, Some(p.averageNdvi.value)))
  {
    assert NdviValues([p]) == [p.averageNdvi.value];
    Singleton(p.averageNdvi.value);
  }

  // ------------------------------------------------------------------------------------------
  // Weather
  // ------------------------------------------------------------------------------------------

  /** A daily forecast list, or one current-conditions object. */
  datatype WeatherPayload = WeatherList(days: seq<WeatherDay>) | WeatherCurrent(now: WeatherDay)

  /** Temperature and humidity statistics are emitted only when their key was present. */
  datatype WeatherFeatures = WeatherFeatures(temperature: Option<Spread>, totalRain: real, meanRain: real, humidity: Option<Spread>)
  {
    function Entries(): (f: Features)
      ensures f.Keys == (if temperature.Some? then TemperatureKeys else {}) + RainKeys
        + (if humidity.Some? then HumidityKeys else {})
    {
      (match temperature
       case Some(t) => map["mean_temp" := t.mean, "min_temp" := t.min, "max_temp" := t.max]
       case None => map[])
      + map["total_rain" := totalRain, "mean_rain" := meanRain]
      + (match humidity
         case Some(h) => map["mean_humidity" := h.mean, "min_humidity" := h.min, "max_humidity" := h.max]
         case None => map[])
    }
  }

  const TemperatureKeys: set<string> := {"mean_temp", "min_temp", "max_temp"}
  const RainKeys: set<string> := {"total_rain", "mean_rain"}
  const HumidityKeys: set<string> := {"mean_humidity", "min_humidity", "max_humidity"}

  /** A temperature reading: the object's `day` value (default 0), or the bare number. */
  function TemperatureValue(t: Temperature): real
  {
    match t
    case TempDict(day, _, _) => day.GetOr(0.0)
    case TempScalar(v) => v
  }

  /** The temperature of every day, each of which must have one. */
  function TemperatureValues(days: seq<WeatherDay>): (ts: seq<real>)
    requires forall i :: 0 <= i < |days| ==> days[i].temperature.Some?
    ensures |ts| == |days|
    ensures forall i :: 0 <= i < |days| ==> ts[i] == TemperatureValue(days[i].temperature.value)
  {
    seq(|days|, i requires 0 <= i < |days| => TemperatureValue(days[i].temperature.value))
  }

  /**
   * A forecast list the source can read: not empty, and when its first day has a temperature
   * (a humidity) every day has one.
   */
  predicate ReadableList(days: seq<WeatherDay>)
  {
    && days != []
    && (days[0].temperature.Some? ==> forall i :: 0 <= i < |days| ==> days[i].temperature.Some?)
    && (days[0].humidity.Some? ==> forall i :: 0 <= i < |days| ==> days[i].humidity.Some?)
  }

  /** The day whose keys decide which statistics are emitted: the first one, or the current conditions. */
  function Leading(w: WeatherPayload): WeatherDay
    requires w.WeatherList? ==> |w.days| > 0
  {
    match w
    case WeatherList(days) => days[0]
    case WeatherCurrent(now) => now
  }

  /**
   * Weather statistics. A list gives temperature statistics when its first day has a temperature
   * (then every day must have one), rain totals with a per-day default of 0, and humidity
   * statistics when its first day has a humidity (then every day must have one). The current
   * conditions collapse mean, minimum and maximum to the one value, and the mean rain to the total.
   * An unreadable list gives no features.
   */
  function PreprocessWeather(w: WeatherPayload): (f: Option<WeatherFeatures>)
    ensures f.None? <==> w.WeatherList? && !ReadableList(w.days)
    ensures f.Some? ==> (f.value.temperature.Some? <==> Leading(w).temperature.Some?)
    ensures f.Some? ==> (f.value.humidity.Some? <==> Leading(w).humidity.Some?)
    ensures f.Some? && f.value.temperature.Some? ==> f.value.temperature.value.Ordered()
    ensures f.Some? && f.value.humidity.Some? ==> f.value.humidity.value.Ordered()
    ensures f.Some? && w.WeatherList? ==> f.value.totalRain == Sum(Rains(w.days))
    ensures f.Some? && w.WeatherCurrent? ==> f.value.meanRain == f.value.totalRain == w.now.rain.GetOr(0.0)
    ensures f.Some? && w.WeatherList? && f.value.temperature.Some? ==>
      f.value.temperature.value == SpreadOf(TemperatureValues(w.days))
    ensures f.Some? && w.WeatherList? && f.value.humidity.Some? ==>
      AllPresent(Humidities(w.days)).Some? && f.value.humidity.value == SpreadOf(AllPresent(Humidities(w.days)).value)
    ensures w.WeatherCurrent? && w.now.temperature.Some? ==>
      f.Some? && f.value.temperature == Some(Point(TemperatureValue(w.now.temperature.value)))
    ensures w.WeatherCurrent? && w.now.humidity.Some? ==>
      f.Some? && f.value.humidity == Some(Point(w.now.humidity.value))
  {
    match w
    case WeatherList(days) =>
      if !ReadableList(days) then None
      else
        var rains := Rains(days);
        Some(WeatherFeatures(
          if days[0].temperature.Some? then Some(SpreadOf(TemperatureValues(days))) else None,
          Sum(rains), Mean(rains),
          if days[0].humidity.Some? then Some(SpreadOf(AllPresent(Humidities(days)).value)) else None))
    case WeatherCurrent(now) =>
      var total := now.rain.GetOr(0.0);
      Some(WeatherFeatures(
        if now.temperature.Some? then Some(Point(TemperatureValue(now.temperature.value))) else None,
        total, total,
        if now.humidity.Some? then Some(Point(now.humidity.value)) else None))
  }

  /** Over a forecast list the mean rain is the total spread evenly over the days. */
  lemma MeanRainSpreadsTotal(days: seq<WeatherDay>)
    requires ReadableList(days)
    ensures PreprocessWeather(WeatherList(days)).value.meanRain * (|days| as real)
         == PreprocessWeather(WeatherList(days)).value.totalRain
  {
    MeanTimesCount(Rains(days));
  }

  /** Rain is counted per day with a default of 0: a list of days none of which reports rain totals 0. */
  lemma {:induction false} NoRainReportedTotalsZero(days: seq<WeatherDay>)
    requires ReadableList(days)
    requires forall i :: 0 <= i < |days| ==> days[i].rain.None?
    ensures PreprocessWeather(WeatherList(days)).value.totalRain == 0.0
  {
    SumBounds(Rains(days), 0.0, 0.0);
  }

  // ------------------------------------------------------------------------------------------
  // Soil
  // ------------------------------------------------------------------------------------------

  /** A time series under `data`, or a single reading. */
  datatype SoilPayload = SoilSeries(data: seq<SoilReading>) | SoilSingle(reading: SoilReading)

  /** The point values of one reading: pH defaults to 7 (neutral), everything else to 0. */
  datatype SoilPoint = SoilPoint(
    moisture: real, temperature: real, ph: real, electricalConductivity: real,
    nitrogen: real, phosphorus: real, potassium: real)

  datatype SoilFeatures = SoilFeatures(point: SoilPoint, moisture: Spread, stdMoisture: real, soilTemperature: Spread)
  {
    function Entries(): (f: Features)
      ensures f.Keys == SoilPointKeys + SoilStatisticKeys
    {
      map[
        "moisture" := point.moisture, "temperature" := point.temperature, "ph" := point.ph,
        "electrical_conductivity" := point.electricalConductivity,
        "nitrogen" := point.nitrogen, "phosphorus" := point.phosphorus, "potassium" := point.potassium,
        "mean_moisture" := moisture.mean, "min_moisture" := moisture.min, "max_moisture" := moisture.max,
        "std_moisture" := stdMoisture,
        "mean_soil_temp" := soilTemperature.mean, "min_soil_temp" := soilTemperature.min,
        "max_soil_temp" := soilTemperature.max]
    }
  }

  const SoilPointKeys: set<string> :=
    {"moisture", "temperature", "ph", "electrical_conductivity", "nitrogen", "phosphorus", "potassium"}
  const SoilStatisticKeys: set<string> :=
    {"mean_moisture", "min_moisture", "max_moisture", "std_moisture", "mean_soil_temp", "min_soil_temp", "max_soil_temp"}

  function PointOf(r: SoilReading): (p: SoilPoint)
    ensures p.ph == (if r.ph.Some? then r.ph.value else 7.0)
    ensures p.moisture == (if r.moisture.Some? then r.moisture.value else 0.0)
  {
    SoilPoint(
      r.moisture.GetOr(0.0), r.temperature.GetOr(0.0), r.ph.GetOr(7.0), r.electricalConductivity.GetOr(0.0),
      r.nitrogen.GetOr(0.0), r.phosphorus.GetOr(0.0), r.potassium.GetOr(0.0))
  }

  function SoilMoistures(data: seq<SoilReading>): (ms: seq<real>)
    ensures |ms| == |data| && forall i :: 0 <= i < |data| ==> ms[i] == data[i].moisture.GetOr(0.0)
  {
    seq(|data|, i requires 0 <= i < |data| => data[i].moisture.GetOr(0.0))
  }

  function SoilTemperatures(data: seq<SoilReading>): (ts: seq<real>)
    ensures |ts| == |data| && forall i :: 0 <= i < |data| ==> ts[i] == data[i].temperature.GetOr(0.0)
  {
    seq(|data|, i requires 0 <= i < |data| => data[i].temperature.GetOr(0.0))
  }

  /**
   * Soil features: the point values of the latest reading, and moisture and temperature statistics
   * over every reading (a single reading is its own mean, minimum and maximum, with no spread).
   * An empty series gives no features.
   */
  function PreprocessSoil(s: SoilPayload): (f: Option<SoilFeatures>)
    ensures f.None? <==> s.SoilSeries? && s.data == []
    ensures f.Some? ==> f.value.moisture.Ordered() && f.value.soilTemperature.Ordered() && f.value.stdMoisture >= 0.0
    ensures f.Some? && s.SoilSeries? ==> f.value.point == PointOf(s.data[|s.data| - 1])
    ensures s.SoilSingle? ==> f.Some? && f.value.point == PointOf(s.reading)
    ensures f.Some? && s.SoilSeries? ==>
      && f.value.moisture == SpreadOf(SoilMoistures(s.data))
      && f.value.stdMoisture == Variance(SoilMoistures(s.data))
      && f.value.soilTemperature == SpreadOf(SoilTemperatures(s.data))
    ensures s.SoilSingle? ==>
      && f.value.moisture == Point(f.value.point.moisture)
      && f.value.stdMoisture == 0.0
      && f.value.soilTemperature == Point(f.value.point.temperature)
  {
    match s
    case SoilSeries(data) =>
      if data == [] then None
      else
        var ms := SoilMoistures(data);
        VarianceNonNegative(ms);
        Some(SoilFeatures(PointOf(data[|data| - 1]), SpreadOf(ms), Variance(ms), SpreadOf(SoilTemperatures(data))))
    case SoilSingle(r) =>
      var p := PointOf(r);
      Some(SoilFeatures(p, Point(p.moisture), 0.0, Point(p.temperature)))
  }

  /** A single reading and a one-reading series preprocess to the same features. */
  lemma SingleReadingMatchesOneEntrySeries(r: SoilReading)
    ensures PreprocessSoil(SoilSeries([r])) == PreprocessSoil(SoilSingle(r))
  {
    assert SoilMoistures([r]) == [r.moisture.GetOr(0.0)];
    assert SoilTemperatures([r]) == [r.temperature.GetOr(0.0)];
    Singleton(r.moisture.GetOr(0.0));
    Singleton(r.temperature.GetOr(0.0));
  }

  /** Earlier readings move only the statistics: the point values are those of the latest reading. */
  lemma LatestReadingGivesPointValues(earlier: seq<SoilReading>, latest: SoilReading)
    ensures PreprocessSoil(SoilSeries(earlier + [latest])).value.point == PreprocessSoil(SoilSingle(latest)).value.point
  {
    var data := earlier + [latest];
    assert data[|data| - 1] == latest;
  }

  // ------------------------------------------------------------------------------------------
  // Feature vector
  // ------------------------------------------------------------------------------------------

  /** The 27 slots of the feature vector, in order: satellite, then weather, then soil. */
  const FeatureNames: seq<string> := [
    "mean_ndvi", "min_ndvi", "max_ndvi", "std_ndvi", "ndvi_trend",
    "mean_temp", "min_temp", "max_temp", "total_rain", "mean_rain",
    "mean_humidity", "min_humidity", "max_humidity",
    "moisture", "temperature", "ph", "electrical_conductivity",
    "nitrogen", "phosphorus", "potassium",
    "mean_moisture", "min_moisture", "max_moisture", "std_moisture",
    "mean_soil_temp", "min_soil_temp", "max_soil_temp"]

  /**
   * The value a slot takes from the three dictionaries: soil first, then weather, then satellite,
   * and 0 when none has the name.
   */
  function SlotValue(sat: Features, weather: Features, soil: Features, name: string): real
  {
    if name in soil then soil[name]
    else if name in weather then weather[name]
    else if name in sat then sat[name]
    else 0.0
  }

  /** Merges the dictionaries (later ones override earlier ones) and reads the named slots in order. */
  method CombineFeatures(sat: Features, weather: Features, soil: Features) returns (v: seq<real>)
    ensures |v| == |FeatureNames| == 27
    ensures forall i :: 0 <= i < |FeatureNames| ==> v[i] == SlotValue(sat, weather, soil, FeatureNames[i])
  {
    var all := sat + weather + soil;
    v := [];
    var i := 0;
    while i < |FeatureNames|
      invariant 0 <= i <= |FeatureNames| && |v| == i
      invariant forall j :: 0 <= j < i ==> v[j] == SlotValue(sat, weather, soil, FeatureNames[j])
    {
      var name := FeatureNames[i];
      v := v + [if name in all then all[name] else 0.0];
      i := i + 1;
    }
  }

  /** The named slots are exactly the real-valued keys the three preprocessors can produce. */
  lemma FeatureNamesArePreprocessedKeys()
    ensures forall k :: k in FeatureNames <==>
      k in SatelliteKeys + TemperatureKeys + RainKeys + HumidityKeys + SoilPointKeys + SoilStatisticKeys
  {
  }

  /** The vector never reads the satellite preprocessor's list entries. */
  lemma ListEntriesNotInVector()
    ensures forall k :: k in SatelliteListKeys ==> k !in FeatureNames
  {
  }

  lemma SatelliteKeysDisjoint()
    ensures SatelliteKeys !! (TemperatureKeys + RainKeys + HumidityKeys)
    ensures SatelliteKeys !! (SoilPointKeys + SoilStatisticKeys)
  {
    assert SatelliteKeys !! TemperatureKeys && SatelliteKeys !! RainKeys && SatelliteKeys !! HumidityKeys;
    assert SatelliteKeys !! SoilPointKeys && SatelliteKeys !! SoilStatisticKeys;
  }

  lemma WeatherSoilKeysDisjoint()
    ensures (TemperatureKeys + RainKeys + HumidityKeys) !! (SoilPointKeys + SoilStatisticKeys)
  {
    assert TemperatureKeys !! SoilPointKeys && TemperatureKeys !! SoilStatisticKeys;
    assert RainKeys !! SoilPointKeys && RainKeys !! SoilStatisticKeys;
    assert HumidityKeys !! SoilPointKeys && HumidityKeys !! SoilStatisticKeys;
  }

  lemma PreprocessedKeysDisjoint()
    ensures SatelliteKeys !! (TemperatureKeys + RainKeys + HumidityKeys)
    ensures SatelliteKeys !! (SoilPointKeys + SoilStatisticKeys)
    ensures (TemperatureKeys + RainKeys + HumidityKeys) !! (SoilPointKeys + SoilStatisticKeys)
  {
    SatelliteKeysDisjoint();
    WeatherSoilKeysDisjoint();
  }

  /**
   * The preprocessors' key sets are disjoint, so in a vector built from preprocessed payloads no
   * feature shadows another: every slot holds its own source's value, or 0 when that source did
   * not emit it.
   */
  lemma PreprocessedFeaturesNotShadowed(s: SatelliteData, w: WeatherPayload, soil: SoilPayload, name: string)
    requires PreprocessSatellite(s).Some? && PreprocessWeather(w).Some? && PreprocessSoil(soil).Some?
    ensures var sf, wf, tf := PreprocessSatellite(s).value.Entries(), PreprocessWeather(w).value.Entries(), PreprocessSoil(soil).value.Entries();
      SlotValue(sf, wf, tf, name) ==
        if name in sf then sf[name] else if name in wf then wf[name] else if name in tf then tf[name] else 0.0
  {
    PreprocessedKeysDisjoint();
  }

  // ------------------------------------------------------------------------------------------
  // Presentation summary
  // ------------------------------------------------------------------------------------------

  /**
   * The keys of a recommendation payload that the summary reads; each is absent (None) or present.
   * `specificRisks` lists the `pest_disease` name of each risk entry.
   */
  datatype RecommendationData = RecommendationData(
    predictedYield: Option<real>,
    yieldUnit: Option<string>,
    yieldQuality: Option<string>,
    recommendation: Option<string>,
    overallRisk: Option<string>,
    specificRisks: Option<seq<Option<string>>>)

  /** A yield summary keeps its three parts (the number is not rendered); the others are text. */
  datatype Summary = YieldSummary(predictedYield: real, unit: string, quality: string) | TextSummary(text: string)

  const LowRiskSummary: string := "Low pest/disease risk. Continue regular monitoring."

  function HighRiskSummary(name: string): string
  {
    "High risk of " + name + ". Immediate action recommended."
  }

  function MediumRiskSummary(name: string): string
  {
    "Medium risk of " + name + ". Monitor and prepare for treatment."
  }

  /** The name of the first listed risk, failing when the list or the name is missing. */
  function TopRiskName(d: RecommendationData): Option<string>
  {
    match d.specificRisks
    case Some(names) => if |names| > 0 then names[0] else None
    case None => None
  }

  /**
   * The `summary` of a formatted recommendation, or None when the formatted result has none: an
   * unknown type, or a payload missing a key the summary reads (the source then returns the
   * payload without a summary).
   */
  function Summarize(kind: string, d: RecommendationData): (s: Option<Summary>)
    ensures s.Some? ==> kind in {"yield_prediction", "irrigation", "pest_disease"}
    ensures kind == "yield_prediction" ==>
      (s.Some? <==> d.predictedYield.Some? && d.yieldUnit.Some? && d.yieldQuality.Some?)
      && (s.Some? ==> s.value == YieldSummary(d.predictedYield.value, d.yieldUnit.value, d.yieldQuality.value))
    ensures kind == "irrigation" ==>
      (s.Some? <==> d.recommendation.Some?) && (s.Some? ==> s.value == TextSummary(d.recommendation.value))
    ensures kind == "pest_disease" && d.overallRisk.None? ==> s.None?
    ensures kind == "pest_disease" && d.overallRisk.Some? && d.overallRisk.value !in {"High", "Medium"} ==>
      s == Some(TextSummary(LowRiskSummary))
    ensures kind == "pest_disease" && d.overallRisk == Some("High") ==>
      (s.Some? <==> TopRiskName(d).Some?) && (s.Some? ==> s.value == TextSummary(HighRiskSummary(TopRiskName(d).value)))
    ensures kind == "pest_disease" && d.overallRisk == Some("Medium") ==>
      (s.Some? <==> TopRiskName(d).Some?) && (s.Some? ==> s.value == TextSummary(MediumRiskSummary(TopRiskName(d).value)))
  {
    if kind == "yield_prediction" then
      if d.predictedYield.Some? && d.yieldUnit.Some? && d.yieldQuality.Some? then
        Some(YieldSummary(d.predictedYield.value, d.yieldUnit.value, d.yieldQuality.value))
      else None
    else if kind == "irrigation" then
      if d.recommendation.Some? then Some(TextSummary(d.recommendation.value)) else None
    else if kind == "pest_disease" then
      match d.overallRisk
      case None => None
      case Some(level) =>
        if level == "High" then
          match TopRiskName(d)
          case Some(name) => Some(TextSummary(HighRiskSummary(name)))
          case None => None
        else if level == "Medium" then
          match TopRiskName(d)
          case Some(name) => Some(TextSummary(MediumRiskSummary(name)))
          case None => None
        else Some(TextSummary(LowRiskSummary))
    else None
  }

  function LevelName(l: RiskLevel): string
  {
    match l
    case Low => "Low"
    case Medium => "Medium"
    case High => "High"
  }

  /** The payload of a pest/disease assessment as the summary reads it. */
  function PestData(a: PestAssessment): RecommendationData
  {
    RecommendationData(None, None, None, None, Some(LevelName(a.overallRisk)),
      Some(seq(|a.specificRisks|, i requires 0 <= i < |a.specificRisks| => Some(a.specificRisks[i].pestDisease))))
  }

  /**
   * Every assessment the pest predictor produces has a summary: a High or Medium level names the
   * top-ranked risk (the level is only above Low when some risk is listed), and Low gives the
   * monitoring sentence.
   */
  lemma AssessmentAlwaysSummarized(a: PestAssessment)
    requires a.overallRisk == OverallRisk(a.specificRisks)
    ensures Summarize("pest_disease", PestData(a)) == Some(TextSummary(
      match a.overallRisk
      case High => HighRiskSummary(a.specificRisks[0].pestDisease)
      case Medium => MediumRiskSummary(a.specificRisks[0].pestDisease)
      case Low => LowRiskSummary))
  {
    if a.overallRisk != Low {
      assert |a.specificRisks| > 0;
    }
  }
}
