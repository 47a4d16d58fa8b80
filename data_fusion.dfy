/**
 * Data fusion: a snapshot combining the satellite, weather and soil payloads, independent insight
 * rules over the snapshot, and crop recommendations ranked by priority with a stable sort.
 */
module DataFusion {
  import opened Wrappers
  import opened Text
  import opened Records
  import opened Ranking

  // ------------------------------------------------------------------------------------------
  // Fusion
  // ------------------------------------------------------------------------------------------

  /** The `water_stress` object of a satellite payload. */
  datatype WaterStressInfo = WaterStressInfo(overallStatus: Option<string>)

  /** The keys of a satellite payload that fusion reads; None = key absent. */
  datatype SatellitePayload = SatellitePayload(averageNdvi: Option<real>, overallStatus: Option<string>, waterStress: Option<WaterStressInfo>)

  /** The snapshot: every field present, absent inputs replaced by their defaults. */
  datatype FusedData = FusedData(
    timestamp: string,
    ndvi: real,
    cropHealthStatus: string,
    waterStress: string,
    airTemperature: real,
    precipitation: real,
    humidity: real,
    soilMoisture: real,
    soilTemperature: real,
    ph: real,
    nitrogen: real,
    phosphorus: real,
    potassium: real)

  /** `weather.get("temperature", {}).get("day", 0)`; a bare-number temperature has no `.get`. */
  function FusionAirTemperature(w: WeatherDay): (t: Option<real>)
    ensures t.None? <==> w.temperature.Some? && w.temperature.value.TempScalar?
  {
    match w.temperature
    case None => Some(0.0)
    case Some(TempDict(day, _, _)) => Some(day.GetOr(0.0))
    case Some(TempScalar(_)) => None
  }

  /**
   * The snapshot of three payloads (None stands for a missing or empty payload, which makes fusion
   * give up); `now` is the timestamp the snapshot is stamped with.
   */
  function FuseData(sat: Option<SatellitePayload>, weather: Option<WeatherDay>, soil: Option<SoilReading>, now: string): (f: Option<FusedData>)
    ensures f.None? <==> sat.None? || weather.None? || soil.None? || FusionAirTemperature(weather.value).None?
    ensures f.Some? ==> f.value.timestamp == now
    ensures f.Some? ==>
      var s, w := sat.value, weather.value;
      && f.value.ndvi == (if s.averageNdvi.Some? then s.averageNdvi.value else 0.0)
      && f.value.cropHealthStatus == (if s.overallStatus.Some? then s.overallStatus.value else "Unknown")
      && f.value.waterStress
         == (if s.waterStress.Some? && s.waterStress.value.overallStatus.Some?
             then s.waterStress.value.overallStatus.value else "Unknown")
      && f.value.airTemperature == FusionAirTemperature(w).value
      && f.value.precipitation == (if w.rain.Some? then w.rain.value else 0.0)
      && f.value.humidity == (if w.humidity.Some? then w.humidity.value else 0.0)
    ensures f.Some? ==>
      var d := soil.value;
      && f.value.soilMoisture == (if d.moisture.Some? then d.moisture.value else 0.0)
      && f.value.soilTemperature == (if d.temperature.Some? then d.temperature.value else 0.0)
      && f.value.ph == (if d.ph.Some? then d.ph.value else 0.0)
      && f.value.nitrogen == (if d.nitrogen.Some? then d.nitrogen.value else 0.0)
      && f.value.phosphorus == (if d.phosphorus.Some? then d.phosphorus.value else 0.0)
      && f.value.potassium == (if d.potassium.Some? then d.potassium.value else 0.0)
  {
    if sat.None? || weather.None? || soil.None? then None
    else
      var s, w, d := sat.value, weather.value, soil.value;
      match FusionAirTemperature(w)
      case None => None
      case Some(air) =>
        var stress := match s.waterStress
          case None => "Unknown"
          case Some(info) => info.overallStatus.GetOr("Unknown");
        Some(FusedData(
          now,
          s.averageNdvi.GetOr(0.0), s.overallStatus.GetOr("Unknown"), stress,
          air, w.rain.GetOr(0.0), w.humidity.GetOr(0.0),
          d.moisture.GetOr(0.0), d.temperature.GetOr(0.0), d.ph.GetOr(0.0),
          d.nitrogen.GetOr(0.0), d.phosphorus.GetOr(0.0), d.potassium.GetOr(0.0)))
  }

  /** Payloads that carry none of the keys read give all-zero measurements and "Unknown" statuses. */
  lemma FuseDataDefaults(now: string)
    ensures var soil := SoilReading(None, None, None, None, None, None, None, None);
      FuseData(Some(SatellitePayload(None, None, None)), Some(WeatherDay(None, None, None)), Some(soil), now)
        == Some(FusedData(now, 0.0, "Unknown", "Unknown", 0.0, 0.0, 0.0, 0.0, 0.0, 0.0, 0.0, 0.0, 0.0))
  {
  }

  // ------------------------------------------------------------------------------------------
  // Insights
  // ------------------------------------------------------------------------------------------

  datatype InsightType = Warning | Opportunity
  datatype Level = High | Medium | Low
  datatype InsightCategory = WaterStressCategory | NutrientDeficiency | PlantingConditions | PestDiseaseRisk

  /** The seven insights the rules can emit. */
  datatype Insight =
    | CriticalWaterStress
    | ModerateWaterStress
    | NitrogenDeficiency
    | PhosphorusDeficiency
    | PotassiumDeficiency
    | PlantingWindow
    | FungalDiseaseRisk
  {
    function Type(): InsightType
    {
      if this == PlantingWindow then Opportunity else Warning
    }

    function Category(): InsightCategory
    {
      match this
      case CriticalWaterStress | ModerateWaterStress => WaterStressCategory
      case NitrogenDeficiency | PhosphorusDeficiency | PotassiumDeficiency => NutrientDeficiency
      case PlantingWindow => PlantingConditions
      case FungalDiseaseRisk => PestDiseaseRisk
    }

    function Confidence(): Level
    {
      if this == CriticalWaterStress || this == PlantingWindow then High else Medium
    }

    function Description(): string
    {
      match this
      case CriticalWaterStress => "Critical water stress detected. Immediate irrigation recommended."
      case ModerateWaterStress => "Moderate water stress detected. Consider irrigation in the next 1-2 days."
      case NitrogenDeficiency => "Nitrogen deficiency detected. Apply nitrogen-rich fertilizer."
      case PhosphorusDeficiency => "Phosphorus deficiency detected. Apply phosphorus-rich fertilizer."
      case PotassiumDeficiency => "Potassium deficiency detected. Apply potassium-rich fertilizer."
      case PlantingWindow => "Optimal conditions for planting. Consider planting in the next few days."
      case FungalDiseaseRisk => "High risk of fungal disease due to high humidity and temperature. Consider preventive fungicide application."
    }

    /** The position of the insight's rule in the rule list (both water-stress insights share one rule). */
    function Rule(): nat
    {
      match this
      case CriticalWaterStress | ModerateWaterStress => 0
      case NitrogenDeficiency => 1
      case PhosphorusDeficiency => 2
      case PotassiumDeficiency => 3
      case PlantingWindow => 4
      case FungalDiseaseRisk => 5
    }
  }

  predicate CriticalWater(f: FusedData) { f.ndvi < 0.4 && f.soilMoisture < 30.0 && f.precipitation < 5.0 }
  predicate ModerateWater(f: FusedData) { f.ndvi < 0.5 && f.soilMoisture < 40.0 && f.precipitation < 10.0 }
  predicate PlantingConditionsMet(f: FusedData)
  {
    20.0 <= f.soilTemperature <= 30.0 && 20.0 <= f.airTemperature <= 30.0 && 40.0 <= f.soilMoisture <= 60.0
  }
  predicate FungalConditions(f: FusedData)
  {
    f.humidity > 80.0 && 22.0 <= f.airTemperature <= 28.0 && f.cropHealthStatus in ["Fair", "Poor"]
  }

  function If(c: bool, i: Insight): seq<Insight> { if c then [i] else [] }

  function WaterInsights(f: FusedData): seq<Insight>
  {
    if CriticalWater(f) then [CriticalWaterStress] else If(ModerateWater(f), ModerateWaterStress)
  }

  /** The insights of a snapshot, one rule after the other. */
  function Insights(f: FusedData): seq<Insight>
  {
    WaterInsights(f)
      + If(f.ndvi < 0.4 && f.nitrogen < 15.0, NitrogenDeficiency)
      + If(f.ndvi < 0.4 && f.phosphorus < 10.0, PhosphorusDeficiency)
      + If(f.ndvi < 0.4 && f.potassium < 15.0, PotassiumDeficiency)
      + If(PlantingConditionsMet(f), PlantingWindow)
      + If(FungalConditions(f), FungalDiseaseRisk)
  }

  /** Applies the rules in order, appending each insight that fires. */
  method GenerateIntegratedInsights(f: FusedData) returns (insights: seq<Insight>)
    ensures insights == Insights(f)
  {
    insights := [];
    if CriticalWater(f) {
      insights := insights + [CriticalWaterStress];
    } else if ModerateWater(f) {
      insights := insights + [ModerateWaterStress];
    }
    assert insights == WaterInsights(f);
    var water := insights;
    if f.ndvi < 0.4 && f.nitrogen < 15.0 {
      insights := insights + [NitrogenDeficiency];
    }
    assert insights == water + If(f.ndvi < 0.4 && f.nitrogen < 15.0, NitrogenDeficiency);
    var withN := insights;
    if f.ndvi < 0.4 && f.phosphorus < 10.0 {
      insights := insights + [PhosphorusDeficiency];
    }
    assert insights == withN + If(f.ndvi < 0.4 && f.phosphorus < 10.0, PhosphorusDeficiency);
    var withP := insights;
    if f.ndvi < 0.4 && f.potassium < 15.0 {
      insights := insights + [PotassiumDeficiency];
    }
    assert insights == withP + If(f.ndvi < 0.4 && f.potassium < 15.0, PotassiumDeficiency);
    var withK := insights;
    if PlantingConditionsMet(f) {
      insights := insights + [PlantingWindow];
    }
    assert insights == withK + If(PlantingConditionsMet(f), PlantingWindow);
    var withPlanting := insights;
    if FungalConditions(f) {
      insights := insights + [FungalDiseaseRisk];
    }
    assert insights == withPlanting + If(FungalConditions(f), FungalDiseaseRisk);
  }

  /** Strictly increasing rule positions: at most one insight per rule. */
  predicate InRuleOrder(s: seq<Insight>)
  {
    forall i, j :: 0 <= i < j < |s| ==> s[i].Rule() < s[j].Rule()
  }

  predicate RulesBelow(s: seq<Insight>, n: nat)
  {
    forall i :: 0 <= i < |s| ==> s[i].Rule() < n
  }

  lemma ExtendInRuleOrder(s: seq<Insight>, c: bool, x: Insight)
    requires InRuleOrder(s) && RulesBelow(s, x.Rule())
    ensures InRuleOrder(s + If(c, x)) && RulesBelow(s + If(c, x), x.Rule() + 1)
  {
  }

  /** In rule order, the k-th insight comes from rule k or a later one. */
  lemma {:induction false} RuleAtLeastIndex(s: seq<Insight>, k: nat)
    requires InRuleOrder(s) && k < |s|
    ensures s[k].Rule() >= k
  {
    if k > 0 {
      RuleAtLeastIndex(s, k - 1);
    }
  }

  /** Rule order bounds the length by the number of rules and allows one water-stress insight. */
  lemma RuleOrderBounds(s: seq<Insight>)
    requires InRuleOrder(s)
    ensures |s| <= 6
    ensures forall i, j ::
      (0 <= i < |s| && 0 <= j < |s| && s[i].Category() == WaterStressCategory && s[j].Category() == WaterStressCategory) ==> i == j
  {
    if |s| > 6 {
      RuleAtLeastIndex(s, 6);
      assert false;
    }
  }

  /** The insights come in rule order, at most one per rule. */
  lemma InsightsInRuleOrder(f: FusedData)
    ensures InRuleOrder(Insights(f))
  {
    var w := WaterInsights(f);
    assert InRuleOrder(w) && RulesBelow(w, 1);
    var s1 := w + If(f.ndvi < 0.4 && f.nitrogen < 15.0, NitrogenDeficiency);
    assert InRuleOrder(s1) && RulesBelow(s1, 2) by {
      ExtendInRuleOrder(w, f.ndvi < 0.4 && f.nitrogen < 15.0, NitrogenDeficiency);
    }
    var s2 := s1 + If(f.ndvi < 0.4 && f.phosphorus < 10.0, PhosphorusDeficiency);
    assert InRuleOrder(s2) && RulesBelow(s2, 3) by {
      ExtendInRuleOrder(s1, f.ndvi < 0.4 && f.phosphorus < 10.0, PhosphorusDeficiency);
    }
    var s3 := s2 + If(f.ndvi < 0.4 && f.potassium < 15.0, PotassiumDeficiency);
    assert InRuleOrder(s3) && RulesBelow(s3, 4) by {
      ExtendInRuleOrder(s2, f.ndvi < 0.4 && f.potassium < 15.0, PotassiumDeficiency);
    }
    var s4 := s3 + If(PlantingConditionsMet(f), PlantingWindow);
    assert InRuleOrder(s4) && RulesBelow(s4, 5) by {
      ExtendInRuleOrder(s3, PlantingConditionsMet(f), PlantingWindow);
    }
    assert InRuleOrder(s4 + If(FungalConditions(f), FungalDiseaseRisk)) by {
      ExtendInRuleOrder(s4, FungalConditions(f), FungalDiseaseRisk);
    }
    assert Insights(f) == s4 + If(FungalConditions(f), FungalDiseaseRisk);
  }

  /** Hence at most six insights, and at most one about water stress. */
  lemma InsightsBounded(f: FusedData)
    ensures var ins := Insights(f);
      && |ins| <= 6
      && forall i, j ::
           (0 <= i < |ins| && 0 <= j < |ins| && ins[i].Category() == WaterStressCategory && ins[j].Category() == WaterStressCategory) ==> i == j
  {
    InsightsInRuleOrder(f);
    RuleOrderBounds(Insights(f));
  }

  /** The critical water rule takes precedence over the moderate one. */
  lemma WaterStressPrecedence(f: FusedData)
    ensures CriticalWaterStress in Insights(f) <==> CriticalWater(f)
    ensures ModerateWaterStress in Insights(f) <==> !CriticalWater(f) && ModerateWater(f)
    ensures CriticalWater(f) ==> Insights(f)[0].Confidence() == High
  {
  }

  /** An insight is present exactly when its own rule fires. */
  lemma InsightMembership(f: FusedData, x: Insight)
    ensures x in Insights(f) <==>
      || x in WaterInsights(f)
      || (x == NitrogenDeficiency && f.ndvi < 0.4 && f.nitrogen < 15.0)
      || (x == PhosphorusDeficiency && f.ndvi < 0.4 && f.phosphorus < 10.0)
      || (x == PotassiumDeficiency && f.ndvi < 0.4 && f.potassium < 15.0)
      || (x == PlantingWindow && PlantingConditionsMet(f))
      || (x == FungalDiseaseRisk && FungalConditions(f))
  {
    var a := WaterInsights(f);
    var b := If(f.ndvi < 0.4 && f.nitrogen < 15.0, NitrogenDeficiency);
    var c := If(f.ndvi < 0.4 && f.phosphorus < 10.0, PhosphorusDeficiency);
    var d := If(f.ndvi < 0.4 && f.potassium < 15.0, PotassiumDeficiency);
    var e := If(PlantingConditionsMet(f), PlantingWindow);
    var g := If(FungalConditions(f), FungalDiseaseRisk);
    assert Insights(f) == a + b + c + d + e + g;
    assert x in a + b + c + d + e + g <==> x in a || x in b || x in c || x in d || x in e || x in g;
  }

  /** The three nutrient rules fire independently, each on low NDVI and its own threshold. */
  lemma NutrientRulesIndependent(f: FusedData)
    ensures NitrogenDeficiency in Insights(f) <==> f.ndvi < 0.4 && f.nitrogen < 15.0
    ensures PhosphorusDeficiency in Insights(f) <==> f.ndvi < 0.4 && f.phosphorus < 10.0
    ensures PotassiumDeficiency in Insights(f) <==> f.ndvi < 0.4 && f.potassium < 15.0
  {
    InsightMembership(f, NitrogenDeficiency);
    InsightMembership(f, PhosphorusDeficiency);
    InsightMembership(f, PotassiumDeficiency);
  }

  /** The planting insight appears iff all three ranges hold (bounds included); it is the only opportunity. */
  lemma PlantingIsTheOnlyOpportunity(f: FusedData)
    ensures PlantingWindow in Insights(f) <==> PlantingConditionsMet(f)
    ensures forall i :: 0 <= i < |Insights(f)| ==> (Insights(f)[i].Type() == Opportunity <==> Insights(f)[i] == PlantingWindow)
    ensures FungalDiseaseRisk in Insights(f) <==> FungalConditions(f)
  {
  }

  datatype FusionResult = FusionResult(fusedData: FusedData, insights: seq<Insight>)

  /** The fused snapshot and its insights, or None when a payload is missing or empty. */
  method FuseSatelliteWeatherSoil(sat: Option<SatellitePayload>, weather: Option<WeatherDay>, soil: Option<SoilReading>, now: string)
    returns (res: Option<FusionResult>)
    ensures res.None? <==> FuseData(sat, weather, soil, now).None?
    ensures res.Some? ==> res.value.fusedData == FuseData(sat, weather, soil, now).value
    ensures res.Some? ==> res.value.insights == Insights(res.value.fusedData)
  {
    var fused := FuseData(sat, weather, soil, now);
    if fused.None? {
      return None;
    }
    var insights := GenerateIntegratedInsights(fused.value);
    res := Some(FusionResult(fused.value, insights));
  }

  // ------------------------------------------------------------------------------------------
  // Recommendations
  // ------------------------------------------------------------------------------------------

  datatype Thresholds = Thresholds(
    soilMoisture: (real, real),
    soilTemp: (real, real),
    airTemp: (real, real),
    nitrogen: (real, real),
    phosphorus: (real, real),
    potassium: (real, real),
    ph: (real, real))

  const ThresholdTable: map<string, Thresholds> := map[
    "maize" := Thresholds((40.0, 60.0), (18.0, 32.0), (18.0, 32.0), (20.0, 30.0), (10.0, 15.0), (15.0, 25.0), (5.8, 7.0)),
    "rice" := Thresholds((60.0, 80.0), (20.0, 30.0), (20.0, 32.0), (15.0, 25.0), (8.0, 13.0), (15.0, 25.0), (5.5, 6.5)),
    "default" := Thresholds((40.0, 60.0), (18.0, 30.0), (18.0, 30.0), (15.0, 25.0), (10.0, 15.0), (15.0, 20.0), (6.0, 7.0))]

  /** The row of the lower-cased crop name, or the "default" row. */
  function ThresholdsFor(crop: string): (t: Thresholds)
    ensures t.soilMoisture.0 < t.soilMoisture.1 && t.ph.0 < t.ph.1
  {
    var key := ToLower(crop);
    if key in ThresholdTable then ThresholdTable[key] else ThresholdTable["default"]
  }

  datatype RecCategory = Irrigation | Fertilization | SoilAmendment | CropHealth

  /** The recommendation texts; each carries the measured value it quotes. */
  datatype Advice =
    | CriticalMoisture | LowMoisture | ExcessiveMoisture | HighMoisture
    | SevereNitrogen | NitrogenLow | SeverePhosphorus | PhosphorusLow | SeverePotassium | PotassiumLow
    | TooAcidic | SlightlyAcidic | TooAlkaline | SlightlyAlkaline
    | CriticalCropHealth | PotentialCropHealthIssue

  datatype Recommendation = Recommendation(category: RecCategory, advice: Advice, priority: Level, value: real)

  function PriorityRank(l: Level): nat
  {
    match l
    case High => 0
    case Medium => 1
    case Low => 2
  }

  /** `priority_order[x["priority"]]`, the sort key. */
  function PriorityKey(r: Recommendation): real
  {
    PriorityRank(r.priority) as real
  }

  function MoistureRecs(m: real, range: (real, real)): seq<Recommendation>
  {
    if m < range.0 then
      if m < range.0 - 10.0 then [Recommendation(Irrigation, CriticalMoisture, High, m)]
      else [Recommendation(Irrigation, LowMoisture, Medium, m)]
    else if m > range.1 then
      if m > range.1 + 10.0 then [Recommendation(Irrigation, ExcessiveMoisture, Medium, m)]
      else [Recommendation(Irrigation, HighMoisture, Low, m)]
    else []
  }

  /** A nutrient below its lower bound: high priority more than `margin` below, else medium. */
  function NutrientRecs(x: real, low: real, margin: real, severe: Advice, mild: Advice): seq<Recommendation>
  {
    if x < low then
      if x < low - margin then [Recommendation(Fertilization, severe, High, x)]
      else [Recommendation(Fertilization, mild, Medium, x)]
    else []
  }

  function PhRecs(ph: real, range: (real, real)): seq<Recommendation>
  {
    if ph < range.0 then
      if ph < range.0 - 0.5 then [Recommendation(SoilAmendment, TooAcidic, Medium, ph)]
      else [Recommendation(SoilAmendment, SlightlyAcidic, Low, ph)]
    else if ph > range.1 then
      if ph > range.1 + 0.5 then [Recommendation(SoilAmendment, TooAlkaline, Medium, ph)]
      else [Recommendation(SoilAmendment, SlightlyAlkaline, Low, ph)]
    else []
  }

  function HealthRecs(ndvi: real): seq<Recommendation>
  {
    if ndvi < 0.3 then [Recommendation(CropHealth, CriticalCropHealth, High, ndvi)]
    else if ndvi < 0.5 then [Recommendation(CropHealth, PotentialCropHealthIssue, Medium, ndvi)]
    else []
  }

  /** The recommendations in the order the rules produce them, before sorting. */
  function Recommendations(f: FusedData, t: Thresholds): seq<Recommendation>
  {
    MoistureRecs(f.soilMoisture, t.soilMoisture)
      + NutrientRecs(f.nitrogen, t.nitrogen.0, 5.0, SevereNitrogen, NitrogenLow)
      + NutrientRecs(f.phosphorus, t.phosphorus.0, 3.0, SeverePhosphorus, PhosphorusLow)
      + NutrientRecs(f.potassium, t.potassium.0, 5.0, SeverePotassium, PotassiumLow)
      + PhRecs(f.ph, t.ph)
      + HealthRecs(f.ndvi)
  }

  /**
   * The recommendations for a crop, most urgent first; the sort is stable, so equal priorities keep
   * rule order. A missing fusion result gives the empty list.
   */
  method GenerateCropRecommendations(fusion: Option<FusionResult>, crop: string) returns (recs: seq<Recommendation>)
    ensures fusion.None? ==> recs == []
    ensures fusion.Some? ==> recs == SortByKey(Recommendations(fusion.value.fusedData, ThresholdsFor(crop)), PriorityKey)
  {
    if fusion.None? {
      return [];
    }
    var f := fusion.value.fusedData;
    var t := ThresholdsFor(crop);
    recs := [];
    if f.soilMoisture < t.soilMoisture.0 {
      if f.soilMoisture < t.soilMoisture.0 - 10.0 {
        recs := recs + [Recommendation(Irrigation, CriticalMoisture, High, f.soilMoisture)];
      } else {
        recs := recs + [Recommendation(Irrigation, LowMoisture, Medium, f.soilMoisture)];
      }
    } else if f.soilMoisture > t.soilMoisture.1 {
      if f.soilMoisture > t.soilMoisture.1 + 10.0 {
        recs := recs + [Recommendation(Irrigation, ExcessiveMoisture, Medium, f.soilMoisture)];
      } else {
        recs := recs + [Recommendation(Irrigation, HighMoisture, Low, f.soilMoisture)];
      }
    }
    assert recs == MoistureRecs(f.soilMoisture, t.soilMoisture);
    recs := recs + NutrientRecs(f.nitrogen, t.nitrogen.0, 5.0, SevereNitrogen, NitrogenLow);
    recs := recs + NutrientRecs(f.phosphorus, t.phosphorus.0, 3.0, SeverePhosphorus, PhosphorusLow);
    recs := recs + NutrientRecs(f.potassium, t.potassium.0, 5.0, SeverePotassium, PotassiumLow);
    var beforePh := recs;
    if f.ph < t.ph.0 {
      if f.ph < t.ph.0 - 0.5 {
        recs := recs + [Recommendation(SoilAmendment, TooAcidic, Medium, f.ph)];
      } else {
        recs := recs + [Recommendation(SoilAmendment, SlightlyAcidic, Low, f.ph)];
      }
    } else if f.ph > t.ph.1 {
      if f.ph > t.ph.1 + 0.5 {
        recs := recs + [Recommendation(SoilAmendment, TooAlkaline, Medium, f.ph)];
      } else {
        recs := recs + [Recommendation(SoilAmendment, SlightlyAlkaline, Low, f.ph)];
      }
    }
    assert recs == beforePh + PhRecs(f.ph, t.ph);
    var beforeHealth := recs;
    if f.ndvi < 0.3 {
      recs := recs + [Recommendation(CropHealth, CriticalCropHealth, High, f.ndvi)];
    } else if f.ndvi < 0.5 {
      recs := recs + [Recommendation(CropHealth, PotentialCropHealthIssue, Medium, f.ndvi)];
    }
    assert recs == beforeHealth + HealthRecs(f.ndvi);
    recs := SortByKey(recs, PriorityKey);
  }

  /**
   * Inside the optimal moisture range there is no irrigation advice; below it there is exactly one,
   * of high priority iff the moisture is more than 10 points below the range.
   */
  lemma IrrigationAdviceByMoisture(f: FusedData, t: Thresholds)
    requires t.soilMoisture.0 <= t.soilMoisture.1
    ensures var recs := Recommendations(f, t);
      && (t.soilMoisture.0 <= f.soilMoisture <= t.soilMoisture.1 ==>
            forall i :: 0 <= i < |recs| ==> recs[i].category != Irrigation)
      && (f.soilMoisture < t.soilMoisture.0 ==>
            recs[0].category == Irrigation && (recs[0].priority == High <==> f.soilMoisture < t.soilMoisture.0 - 10.0)
            && forall i :: 1 <= i < |recs| ==> recs[i].category != Irrigation)
  {
  }

  /** pH advice is never of high priority. */
  lemma SoilAmendmentNeverHigh(f: FusedData, t: Thresholds)
    ensures var recs := Recommendations(f, t);
      forall i :: 0 <= i < |recs| && recs[i].category == SoilAmendment ==> recs[i].priority != High
  {
  }

  /**
   * The returned list is a permutation of the generated one, ordered high before medium before low,
   * with each priority's recommendations in the order the rules produced them.
   */
  lemma RecommendationsRanked(f: FusedData, crop: string)
    ensures var generated := Recommendations(f, ThresholdsFor(crop));
      var recs := SortByKey(generated, PriorityKey);
      && multiset(recs) == multiset(generated)
      && (forall i, j :: 0 <= i < j < |recs| ==> PriorityRank(recs[i].priority) <= PriorityRank(recs[j].priority))
      && (forall k :: WithKey(recs, PriorityKey, k) == WithKey(generated, PriorityKey, k))
  {
    PriorityRanked(Recommendations(f, ThresholdsFor(crop)));
  }

  /** The priority sort of any list of recommendations: the same three facts. */
  lemma PriorityRanked(generated: seq<Recommendation>)
    ensures var recs := SortByKey(generated, PriorityKey);
      && multiset(recs) == multiset(generated)
      && (forall i, j :: 0 <= i < j < |recs| ==> PriorityRank(recs[i].priority) <= PriorityRank(recs[j].priority))
      && (forall k :: WithKey(recs, PriorityKey, k) == WithKey(generated, PriorityKey, k))
  {
    SortByKeySorted(generated, PriorityKey);
    SortByKeyPermutes(generated, PriorityKey);
    forall k
      ensures WithKey(SortByKey(generated, PriorityKey), PriorityKey, k) == WithKey(generated, PriorityKey, k)
    {
      SortByKeyStable(generated, PriorityKey, k);
    }
  }
}
