# AGRI-EDGE-AI scoring and recommendation engine, in Dafny

This project models the agronomic engine of AGRI-EDGE-AI and proves properties of it. The engine
turns satellite NDVI/NDMI values, weather-forecast days and soil-sensor readings into yield
estimates, irrigation decisions, pest and disease risk lists, fused cross-source insights and
priority-sorted crop recommendations. The model also covers the smaller rules around the engine:
learner levels and lesson bookkeeping, the browser's offline cache, the fallback of interface
translations, lesson and quiz navigation, photo-upload naming and quest progress.

Measurements are Dafny `real`s. Crop tables are constant maps with their `default` rows. Every
path on which the program catches an exception and returns `None`, `{}` or `[]` is an explicit
`Option` result. The random yield jitter, clocks, the translation table and the connection status
are parameters.

Layout, one module per source file:

- `EdgeModels` (edge_models.dfy): yield score, three-day irrigation decision, pest/disease risk
  scoring, filtering, ranking and advice.
- `DataFusion` (data_fusion.dfy): the fused snapshot, the six insight rules and the crop
  recommendations with their stable priority sort.
- `ModelUtils` (model_utils.dfy): feature preprocessing of satellite, weather and soil payloads,
  the 27-slot feature vector and the summary sentence of a recommendation.
- `SoilSensor`, `WeatherForecasting`, `SatelliteProcessing`: the analysis helpers.
- `Gamification`, `Offline`, `Translations`, `LearningRoutes`, `SustainabilityRoutes`: the smaller
  rules. `User`, `LearningProgress`, `OfflineDataManager` and `UserQuest` are classes whose methods
  update their fields.
- Shared modules:
  - `Wrappers`: the `Option` type.
  - `Records`: weather-day and soil-reading payloads with optional fields.
  - `Text`: ASCII lower-casing, comma lists and decimal text.
  - `Stats`: sums, means, extremes, counts, percentages, variance and the least-squares slope.
  - `Ranking`: a stable insertion sort by a real key. It is the reference for Python's
    `list.sort`, and its lemmas prove it sorts, permutes and keeps ties in their order.

Where the written description of the system and the code disagree, the model follows the code:

- The feature vector has 27 names, not 26.
- Planting recommendations read an `optimal_rain` entry that no crop row defines; see Findings.

## Model

| member | source | states |
|---|---|---|
| EdgeModels.YieldLookupIgnoresCase | ai_models/edge_models.py:101 | The yield row of a crop name does not depend on its letter case. |
| EdgeModels.YieldUnknownCropUsesDefault | ai_models/edge_models.py:91-101 | A crop outside the five named ones gets the default row (base 3.0, weights 0.5/0.25/0.25). |
| EdgeModels.YieldWeightsSumToOne | ai_models/edge_models.py:91-98 | In every yield row the NDVI, soil and weather weights sum to 1 and the base yield is positive. |
| EdgeModels.Closeness | ai_models/edge_models.py:115-116 | The closeness score is at most 1, and it is exactly 1 iff the value is at the centre. |
| EdgeModels.SoilScore | ai_models/edge_models.py:107-121 | The soil score, with defaults for absent readings, is at most 1. |
| EdgeModels.SoilScoreBest | ai_models/edge_models.py:108-121 | 60 % moisture, 25 degrees and N, P, K at or above 30, 15, 25 give a soil score of exactly 1. |
| EdgeModels.YieldWeatherTemperature | ai_models/edge_models.py:125 | The temperature is unusable exactly when it is present but a plain number rather than a record with a day value. |
| EdgeModels.WeatherScore | ai_models/edge_models.py:124-134 | The weather score is at most 1. |
| EdgeModels.ComponentsBounded | ai_models/edge_models.py:103-135 | The soil and weather components never exceed their weights. |
| EdgeModels.QualityBoundaries | ai_models/edge_models.py:145-153 | The quality thresholds are strict: exactly 1.2 x base is Good, exactly base is Average, exactly 0.8 x base is Poor. |
| EdgeModels.QualityMonotone | ai_models/edge_models.py:145-153 | A larger prediction never gets a worse quality label. |
| EdgeModels.Shares | ai_models/edge_models.py:161-165 | The contribution percentages exist iff the yield factor is non-zero, and then they sum to 100. |
| EdgeModels.PredictYield | ai_models/edge_models.py:73-170 | No result for an empty NDVI series or an unusable temperature. Otherwise the prediction is base x factor x (0.9 + 0.2 r), its quality label is the one for that value, and contributions exist iff the factor is non-zero. |
| EdgeModels.PredictYieldBounds | ai_models/edge_models.py:137-143 | The prediction lies in [0.9, 1.1) times base yield x yield factor. |
| EdgeModels.UnknownStageUsesVegetative | ai_models/edge_models.py:208-210 | An unknown growth stage uses that crop's own vegetative row. |
| EdgeModels.StageParamsWellFormed | ai_models/edge_models.py:186-206 | Every stage row has its minimum moisture below its optimum and a positive daily evapotranspiration. |
| EdgeModels.PredictIrrigationNeeds | ai_models/edge_models.py:172-269 | The status follows the deficit ladder. The amount is 0 iff nothing is needed, and otherwise 0.1 x deficit. Urgent only below the minimum moisture. The priority and days-until-irrigation follow the status. |
| EdgeModels.IrrigationMonotoneInMoisture | ai_models/edge_models.py:219-251 | Wetter soil never makes the irrigation decision more urgent. |
| EdgeModels.IrrigationUsesThreeDays | ai_models/edge_models.py:213 | Only the first three forecast days affect the decision. |
| EdgeModels.SummarizeForecast | ai_models/edge_models.py:346-353 | The forecast summary exists iff the days are non-empty and all readable. It is then the mean day temperature, the highest maximum, the lowest minimum, the mean and highest humidity, the rain total (0 where absent) and the count of days over 1 mm. Average humidity is at most the maximum, and rainy days are at most the day count. |
| EdgeModels.RiskScore | ai_models/edge_models.py:371-384 | A risk score is one of 0, 20, 30, 40, 50, 60, 70, 80, 100. |
| EdgeModels.RiskLevelByFactors | ai_models/edge_models.py:372-395 | The level is High iff temperature and humidity match plus rain or crop health. The score is at least 50 iff the stated factor combinations hold. Medium iff 50 <= score < 80. |
| EdgeModels.SurfacedAreMediumOrHigh | ai_models/edge_models.py:394-407 | Every surfaced risk scores at least 50, and no more risks surface than there are conditions. |
| EdgeModels.SurfacedLevels | ai_models/edge_models.py:386-407 | Every surfaced risk carries the level its score determines. |
| EdgeModels.AssessConditions | ai_models/edge_models.py:355-410 | The loop's list, once sorted, is the surfaced list sorted by score, highest first. |
| EdgeModels.OverallRisk | ai_models/edge_models.py:412-418 | The overall level is at least every listed level, and if not Low it is the level of some listed risk. |
| EdgeModels.OverallIsHead | ai_models/edge_models.py:409-418 | On a list sorted by score, the overall level is the head's level, or Low for an empty list. |
| EdgeModels.RankedRisks | ai_models/edge_models.py:355-418 | The risk list is a permutation of the surfaced risks. All score at least 50. Scores are non-increasing, ties keep table order, and the head carries the overall level. |
| EdgeModels.RankedFrom | ai_models/edge_models.py:409-418 | The same five facts for sorting any list of leveled risks that score at least 50. |
| EdgeModels.PredictPestDiseaseRisk | ai_models/edge_models.py:271-438 | No result iff the first five forecast days give no summary. Otherwise: the summary, the sorted surfaced risks, and the overall level of that list. |
| EdgeModels.PestRecommendation | ai_models/edge_models.py:440-479 | Advice is never empty. A Low level gets the fallback advice; an unknown pest gets the default rows. |
| EdgeModels.EveryPestHasAdvice | ai_models/edge_models.py:442-471 | Every pest or disease in the risk tables has an advice row of its own. |
| DataFusion.FusionAirTemperature | static/utils/data_fusion.py:42 | The air temperature is unusable exactly when it is a plain number rather than a record. |
| DataFusion.FuseData | static/utils/data_fusion.py:27-54 | No snapshot iff any input is missing or the air temperature is unusable. The snapshot carries the given time, and each field holds its payload key's value when present, else its default: 0 for measurements and "Unknown" for crop health and water stress. |
| DataFusion.FuseDataDefaults | static/utils/data_fusion.py:34-54 | Payloads without the keys read give all-zero measurements and "Unknown" statuses. |
| DataFusion.FuseSatelliteWeatherSoil | static/utils/data_fusion.py:15-66 | The result exists iff the snapshot does. It holds that snapshot and exactly the insights the rules give for it. |
| DataFusion.GenerateIntegratedInsights | static/utils/data_fusion.py:68-145 | The loop returns exactly the rule-defined insight list. |
| DataFusion.InsightsInRuleOrder | static/utils/data_fusion.py:68-145 | Insights appear in the fixed rule order: water, N, P, K, planting, disease. |
| DataFusion.InsightsBounded | static/utils/data_fusion.py:68-145 | There are at most six insights, and at most one of them is about water stress. |
| DataFusion.WaterStressPrecedence | static/utils/data_fusion.py:77-90 | Critical water stress is present iff its rule holds. Moderate is present iff its rule holds and the critical one does not. A critical insight comes first with high confidence. |
| DataFusion.InsightMembership | static/utils/data_fusion.py:77-143 | An insight is present iff its own rule fires. |
| DataFusion.NutrientRulesIndependent | static/utils/data_fusion.py:97-119 | Each of N, P and K is reported iff NDVI < 0.4 and its own reading is below 15, 10 or 15 respectively. |
| DataFusion.PlantingIsTheOnlyOpportunity | static/utils/data_fusion.py:125-143 | The planting insight appears iff the inclusive ranges hold, and it is the only opportunity. The fungal insight appears iff its conditions hold. |
| DataFusion.ThresholdsFor | static/utils/data_fusion.py:173-205 | Every crop's moisture and pH ranges have lower bound below upper bound. |
| DataFusion.GenerateCropRecommendations | static/utils/data_fusion.py:147-334 | No snapshot gives an empty list. Otherwise the result is the generated recommendations stably sorted by priority. |
| DataFusion.IrrigationAdviceByMoisture | static/utils/data_fusion.py:208-233 | No irrigation advice inside the optimal moisture range. Below it there is exactly one, first, and it is high priority iff moisture is more than 10 below the range. |
| DataFusion.SoilAmendmentNeverHigh | static/utils/data_fusion.py:279-304 | pH advice is never of high priority. |
| DataFusion.RecommendationsRanked | static/utils/data_fusion.py:326-330 | The result is a permutation of the generated list, ordered high, medium, low, with each priority's advice in generation order. |
| DataFusion.PriorityRanked | static/utils/data_fusion.py:326-330 | Sorting any list of recommendations by priority gives a permutation of it, ordered high, medium, low, with each priority's items in their original order. |
| ModelUtils.SpreadOf | ai_models/model_utils.py:29-31 | mean is the arithmetic mean; min and max are values of the series that bound every value. |
| ModelUtils.Point | ai_models/model_utils.py:48-52 | A single value x gives min = mean = max = x. |
| ModelUtils.SatelliteFeatures.Entries | ai_models/model_utils.py:29-52 | The real-valued satellite features are exactly the five NDVI statistic names. |
| ModelUtils.NdviValues | ai_models/model_utils.py:25 | The NDVI values are the series' average_ndvi entries, in order. |
| ModelUtils.PreprocessSatellite | ai_models/model_utils.py:9-58 | No features iff the series is empty or unreadable. Over a series, the NDVI spread and variance are those of the series' average_ndvi values. Without a series, min = max = mean = average_ndvi (default 0) and variance = trend = 0. |
| ModelUtils.TrendOfLinearSeries | ai_models/model_utils.py:35-45 | The trend of the series a + b i is b, and 0 for one point. |
| ModelUtils.OnePointSeriesMatchesSingleValue | ai_models/model_utils.py:24-52 | A one-point series gives the same statistics as a series-less payload with that average. |
| ModelUtils.WeatherFeatures.Entries | ai_models/model_utils.py:79-120 | The weather features name the temperature keys only when a temperature is present, and always the rain keys. |
| ModelUtils.TemperatureValues | ai_models/model_utils.py:82-86 | The temperatures are each day's reading: its day value, or the plain number. |
| ModelUtils.PreprocessWeather | ai_models/model_utils.py:60-126 | No features iff the list is unreadable. Temperature and humidity are reported iff the first entry has them. Over a list they are the spreads of every day's temperature (`day` value or the bare number) and humidity. Total rain is the sum over days. A single current reading gives its own temperature and humidity as a point, and mean rain = total rain = its rain. |
| ModelUtils.MeanRainSpreadsTotal | ai_models/model_utils.py:93-95 | Mean rain x day count = total rain. |
| ModelUtils.NoRainReportedTotalsZero | ai_models/model_utils.py:93-94 | Days without rain keys total 0. |
| ModelUtils.SoilFeatures.Entries | ai_models/model_utils.py:143-186 | The soil features have the point keys plus the statistic keys. |
| ModelUtils.PointOf | ai_models/model_utils.py:147-155 | Point values take pH 7 and other readings 0 when absent. |
| ModelUtils.SoilMoistures | ai_models/model_utils.py:158 | Each entry's moisture, 0 when absent. |
| ModelUtils.SoilTemperatures | ai_models/model_utils.py:165 | Each entry's temperature, 0 when absent. |
| ModelUtils.PreprocessSoil | ai_models/model_utils.py:128-192 | No features iff the data list is empty. Over a list, the moisture and soil-temperature spreads and the moisture variance span every entry. A single reading collapses them to its own values with variance 0. Point values come from the last entry, or from the single reading. |
| ModelUtils.SingleReadingMatchesOneEntrySeries | ai_models/model_utils.py:143-186 | A one-entry list gives the same features as the single reading. |
| ModelUtils.LatestReadingGivesPointValues | ai_models/model_utils.py:147-155 | Earlier entries never change the point values. |
| ModelUtils.CombineFeatures | ai_models/model_utils.py:194-233 | The loop yields exactly 27 values, in the listed order. Each is soil's value, else weather's, else satellite's, else 0. |
| ModelUtils.FeatureNamesArePreprocessedKeys | ai_models/model_utils.py:208-219 | The 27 listed names are exactly the real-valued keys the three preprocessors can produce. |
| ModelUtils.ListEntriesNotInVector | ai_models/model_utils.py:25-26 | The satellite preprocessor's list entries `ndvi_values` and `ndvi_dates` are not among the vector's names, so the vector never reads them. |
| ModelUtils.PreprocessedKeysDisjoint | ai_models/model_utils.py:208-222 | The three preprocessors' key sets are pairwise disjoint. |
| ModelUtils.PreprocessedFeaturesNotShadowed | ai_models/model_utils.py:222-227 | For preprocessed inputs, every slot takes the one source that has the name, so no value is shadowed. |
| ModelUtils.Summarize | ai_models/model_utils.py:253-266 | A summary exists only for the three known kinds. A yield summary exists iff yield, unit and quality are present, and holds them. Irrigation gets its recommendation text iff present. For pest_disease: none without a level; High and Medium name the top risk in their sentences (none without one); other levels get the monitoring sentence. |
| ModelUtils.AssessmentAlwaysSummarized | ai_models/model_utils.py:258-264 | A pest assessment always gets a summary matching its overall level. |
| SoilSensor.MoistureRangeFor | static/utils/soil_sensor.py:111-127 | Every range is proper; an unlisted crop gets (40, 60). |
| SoilSensor.MoistureLookupIsExact | static/utils/soil_sensor.py:127 | The lookup is case-sensitive: "rice" gets its row and "Rice" the default. |
| SoilSensor.MoistureStatusOf | static/utils/soil_sensor.py:141-152 | Each of the five statuses holds iff the average is in its band, bounds of the optimal range included. |
| SoilSensor.MoistureValues | static/utils/soil_sensor.py:130 | The moistures are present iff every reading has one, and then they are listed in order. |
| SoilSensor.AnalyzeSoilMoisture | static/utils/soil_sensor.py:98-180 | No analysis for missing, empty or unreadable data. Otherwise the mean, minimum and maximum of the moistures (min <= average <= max), the percentages of readings below, within (bounds included) and above the crop's range, the status of the average and its advice. |
| SoilSensor.MoisturePercentagesSumToHundred | static/utils/soil_sensor.py:136-138 | The below, within and above percentages sum to 100. |
| SoilSensor.FertilityRangesFor | static/utils/soil_sensor.py:195-224 | All ranges are positive and proper; an unlisted crop gets the default row. |
| SoilSensor.Score | static/utils/soil_sensor.py:349-359 | A status scores at most 3, and exactly 3 iff it is Optimal. |
| SoilSensor.NutrientStatusOf | static/utils/soil_sensor.py:236-252 | Optimal iff inside the range. Severely deficient iff below 0.7 x low. Excess iff above 1.3 x high. |
| SoilSensor.PhStatusOf | static/utils/soil_sensor.py:323-339 | Optimal iff inside the range. Too acidic or too alkaline iff more than 0.5 outside it. |
| SoilSensor.OverallOf | static/utils/soil_sensor.py:368-379 | Good iff the four scores sum to at least 10 (mean >= 2.5). Poor iff they sum below 6. |
| SoilSensor.AnalyzeSoilFertility | static/utils/soil_sensor.py:182-390 | No analysis iff data is missing or empty, or the last reading lacks a value. Otherwise the latest reading's timestamp and N, P, K and pH values with the crop's ranges; N, P and K share the nutrient rule and pH has its own; each gets its advice; the overall level is the one the four statuses give, with its advice. |
| SoilSensor.FertilityUsesLatestReading | static/utils/soil_sensor.py:227 | Earlier readings never change the fertility analysis. |
| SoilSensor.AllOptimalIsGood | static/utils/soil_sensor.py:349-379 | A reading inside every range gets the overall level Good. |
| SoilSensor.GoodExcludesSevereFindings | static/utils/soil_sensor.py:349-379 | A Good result has no severely deficient nutrient and no extreme pH. |
| WeatherForecasting.MoistureParamsFor | static/utils/weather_forecasting.py:213-229 | min < optimal < max in every row; an unlisted crop gets (40, 60, 80). |
| WeatherForecasting.IrrigationStatusOf | static/utils/weather_forecasting.py:245-264 | Urgent iff below minimum. Recommended iff below optimum with a negative balance. Excess iff above maximum. Sufficient otherwise, checked in that order. |
| WeatherForecasting.AnalyzeIrrigationNeeds | static/utils/weather_forecasting.py:199-279 | No analysis iff one of the first three days lacks a temperature. Irrigation is needed iff Urgent or Recommended. Precipitation sums the first three days. ET over three days is 3 x 0.5 x (mean day temperature / 20). Balance = precipitation - ET. Both are absent iff the forecast is empty. |
| WeatherForecasting.AnalyzeFirstDays | static/utils/weather_forecasting.py:231-275 | The same facts for an analysis over the already-cut first days, including the ET value. |
| WeatherForecasting.IrrigationUsesFirstThreeDays | static/utils/weather_forecasting.py:232-235 | Days after the third never change the analysis. |
| WeatherForecasting.IrrigationNeedMonotone | static/utils/weather_forecasting.py:245-264 | If wetter soil needs irrigation, drier soil does too. |
| WeatherForecasting.BalanceIgnoresMoisture | static/utils/weather_forecasting.py:239-242 | The water balance does not depend on soil moisture. |
| WeatherForecasting.EmptyForecastNeedsOnlyBelowMinimum | static/utils/weather_forecasting.py:235-264 | With no forecast, irrigation is needed iff moisture is below the minimum. |
| WeatherForecasting.PlantingTableWellFormed | static/utils/weather_forecasting.py:313-354 | Every planting row has ordered temperature and rain ranges, with the optimum inside. |
| WeatherForecasting.SummarizeWeek | static/utils/weather_forecasting.py:301-310 | A summary exists iff the week is non-empty with every value present. It is then the mean day temperature, the lowest minimum, the highest maximum, the mean humidity, the rain total (0 where absent) and the count of days over 1 mm. Rainy days are at most the day count. |
| WeatherForecasting.SummaryBoundsEveryDay | static/utils/weather_forecasting.py:306-307 | The week's minimum and maximum bound every day's own. |
| WeatherForecasting.Closeness | static/utils/weather_forecasting.py:369-372 | The score is in [0, 1]: 1 iff the distance is 0, and 0 iff the distance reaches the maximum. |
| WeatherForecasting.TemperatureSuitability | static/utils/weather_forecasting.py:366-372 | The score is in [0, 1] and 0 when the week leaves the crop's range. It is 1 iff the week is inside the range with the average at the optimum. |
| WeatherForecasting.RainSuitabilityAsWritten | static/utils/weather_forecasting.py:375-385 | As written, a total inside the crop's rain range fails (missing key). Outside the range the score is 0. |
| WeatherForecasting.OptimalRain | static/utils/weather_forecasting.py:378-383 | The corrected optimum lies strictly inside the rain range. |
| WeatherForecasting.RainSuitability | static/utils/weather_forecasting.py:374-385 | The corrected score is in [0, 1]. It is 0 outside the range, 1 iff at the optimum, and positive strictly inside the range. |
| WeatherForecasting.PlantingStatusOf | static/utils/weather_forecasting.py:390-398 | Each status holds iff the suitability is in its band (0.7, 0.5 and 0.3 thresholds). |
| WeatherForecasting.Suitability | static/utils/weather_forecasting.py:388 | 0.7 temperature + 0.3 rain is in [0, 1], and is 1 iff both scores are 1. |
| WeatherForecasting.NoteSentences | static/utils/weather_forecasting.py:428-455 | Always a temperature and a precipitation sentence, plus the crop's own sentence for the named crops only. |
| WeatherForecasting.RecommendationNotes | static/utils/weather_forecasting.py:428-457 | The joined notes start with the temperature sentence and continue past it. |
| WeatherForecasting.Evaluate | static/utils/weather_forecasting.py:363-407 | A crop's scores are in [0, 1]. Its suitability combines them, and its status is the one for that suitability. |
| WeatherForecasting.Evaluated | static/utils/weather_forecasting.py:359-407 | Only requested crops from the table are evaluated, each exactly once by the rule. |
| WeatherForecasting.EvaluatedStep | static/utils/weather_forecasting.py:359-361 | Evaluating one more crop appends its evaluation, or nothing for a crop outside the table. |
| WeatherForecasting.EvaluateCandidates | static/utils/weather_forecasting.py:357-407 | The loop returns exactly the evaluated crops, in request order. |
| WeatherForecasting.GeneratePlantingRecommendation | static/utils/weather_forecasting.py:281-426 | No result iff the week has no summary. Otherwise the summary and the evaluations sorted by suitability, highest first. |
| WeatherForecasting.RankedPlantingRecommendations | static/utils/weather_forecasting.py:409-410 | The ranked list is a permutation of the evaluations, non-increasing in suitability, with ties in request order and statuses consistent. |
| WeatherForecasting.EvaluateAsWrittenAgrees | static/utils/weather_forecasting.py:375-385 | As written, a crop fails iff the total is inside its rain range, and otherwise agrees with the corrected rule. |
| WeatherForecasting.ReadsOptimalRainStep | static/utils/weather_forecasting.py:359-385 | Some crop reads the missing key iff the first does or one of the rest does. |
| WeatherForecasting.EvaluatedAsWrittenFails | static/utils/weather_forecasting.py:359-385 | As written, the crop loop fails iff some considered crop's rain range contains the total, and otherwise agrees with the corrected loop. |
| WeatherForecasting.RainKeyErrorDiscardsResult | static/utils/weather_forecasting.py:424-426 | As written, the whole recommendation is None exactly when a considered crop's range contains the week's rain. |
| WeatherForecasting.ExampleWeek | static/utils/weather_forecasting.py:304-310 | The example day summarises to 20 mm of rain. |
| WeatherForecasting.MaizeRainScore | static/utils/weather_forecasting.py:313-317 | For maize, 20 mm reads the missing key, while the corrected rule scores it 0.5. |
| WeatherForecasting.RainKeyErrorExample | static/utils/weather_forecasting.py:375-385 | The example week with maize: as written there is no result, and corrected the rain score is 0.5. |
| SatelliteProcessing.PixelIndex | static/utils/satellite_processing.py:149-154 | (x - y)/(x + y) where x + y > 0, else 0; in [-1, 1] for non-negative bands. |
| SatelliteProcessing.NormalizedDifference | static/utils/satellite_processing.py:136-158 | Defined iff the bands broadcast. The output has the broadcast length, each value is the pixel index, and all values are in [-1, 1] for non-negative bands. |
| SatelliteProcessing.NormalizedDifferenceAntisymmetric | static/utils/satellite_processing.py:148-179 | Swapping the bands negates every value. |
| SatelliteProcessing.SharesOf | static/utils/satellite_processing.py:200-210 | No shares iff the input is empty. The four bucket percentages are non-negative and sum to 100. |
| SatelliteProcessing.Average | static/utils/satellite_processing.py:228 | The mean lies between the minimum and the maximum; none for empty input. |
| SatelliteProcessing.HealthStatusOf | static/utils/satellite_processing.py:213-220 | Excellent, Good and Fair each need more than 60 % in their bucket, in that precedence. |
| SatelliteProcessing.AnalyzeCropHealth | static/utils/satellite_processing.py:184-232 | The shares are the four NDVI bucket percentages, with the status and mean they imply. Empty input is Poor. |
| SatelliteProcessing.HealthStatusIsMajorityBucket | static/utils/satellite_processing.py:207-220 | Each health status holds iff its bucket exceeds 60 %; Poor iff none does. |
| SatelliteProcessing.StressStatusOf | static/utils/satellite_processing.py:263-270 | Severe, Moderate and Low stress each need more than 30 % in their bucket, in that precedence. |
| SatelliteProcessing.DetectWaterStress | static/utils/satellite_processing.py:234-282 | The shares are the four NDMI bucket percentages, with the status and mean they imply. Empty input is no stress. |
| SatelliteProcessing.MostlyMoistImageHasNoStress | static/utils/satellite_processing.py:255-270 | More than 70 % of pixels at NDMI >= 0.4 means no water stress. |
| SatelliteProcessing.SevereStressTakesPrecedence | static/utils/satellite_processing.py:257-270 | An image half severe and half moderate reports severe stress. |
| Gamification.Reached | static/utils/gamification.py:85-92 | The count of reached thresholds is at most their number. |
| Gamification.LevelFor | static/utils/gamification.py:15-26 | The level lies in [1, 10]. |
| Gamification.ReachedBounds | static/utils/gamification.py:85-92 | Every counted threshold is at most the points, and the next one is above them. |
| Gamification.ReachedMonotone | static/utils/gamification.py:85-92 | More points never reach fewer thresholds. |
| Gamification.CalculateLevel | static/utils/gamification.py:75-92 | The loop computes 1 + the number of thresholds reached. |
| Gamification.LevelBetweenThresholds | static/utils/gamification.py:85-92 | Non-negative points are at least the level's threshold and below the next one. |
| Gamification.LevelMonotone | static/utils/gamification.py:85-92 | The level is non-decreasing in points. |
| Gamification.ThresholdsIncreasing | static/utils/gamification.py:15-26 | The ten thresholds strictly increase. |
| Gamification.FirstLevelBoundary | static/utils/gamification.py:15-26 | -5 and 99 points are level 1, and 100 is level 2. |
| Gamification.TopLevelBoundary | static/utils/gamification.py:15-26 | 12000 points is level 10. |
| Gamification.User.AwardPoints | static/utils/gamification.py:28-73 | Only the named category's points change, and the total is their sum. The level is raised only when the computed level is higher, and never lowered. |
| Gamification.BandShare | static/utils/gamification.py:125-132 | Inside a band the share is in [0, 100); past it, at least 100. |
| Gamification.LevelProgressOf | static/utils/gamification.py:94-141 | At level 10 or above: 100 % and nothing to earn. Below: the band thresholds, the points still missing, and a percentage capped at 100 that is below 100 inside the band. |
| Gamification.ProgressAtEarnedLevel | static/utils/gamification.py:121-132 | At the level their points earn, a user still has points to earn and less than 100 %. |
| Gamification.AppendId | static/utils/gamification.py:418-424 | Appending an id to a well-formed list reads back as the old ids plus the new one. |
| Gamification.IdTexts | static/utils/gamification.py:444 | The ids' decimal texts, in order. |
| Gamification.LearningProgress.constructor | static/utils/gamification.py:405-415 | A new record starts empty, at the given lesson, with no points and no completion date. |
| Gamification.LearningProgress.CompleteLesson | static/utils/gamification.py:381-470 | A listed lesson changes nothing. Otherwise: append the id, move to the next lesson, award the lesson's points plus the bonus only at first completion, set the completion date then, and credit the user's learning points. The user's total becomes the sum of the three categories, and the level is raised to that total's level when higher, else kept. |
| Gamification.RemoveFirst | static/utils/gamification.py:697-700 | Removes one occurrence when present, else changes nothing. |
| Gamification.ModuleCompletionPercentage | static/utils/gamification.py:658-704 | 0 without progress or items, 100 with a completion date, else the truncated percentage of counted entries. |
| Gamification.WellFormedListCountsEveryEntry | static/utils/gamification.py:694-702 | A well-formed list counts every entry. |
| Gamification.OnlyFirstEmptyEntryDropped | static/utils/gamification.py:697-700 | Only one empty entry is removed, so "," still counts one. |
| LearningRoutes.Items | routes/learning_routes.py:237-251 | Each row becomes one item of the given kind, with its id and order. |
| LearningRoutes.ModuleContent | routes/learning_routes.py:236-254 | Lessons then quizzes, stably sorted by order index. |
| LearningRoutes.ModuleContentOrder | routes/learning_routes.py:236-254 | The content is a sorted permutation of the items, and on equal order lessons stay before quizzes. |
| LearningRoutes.FirstIndex | routes/learning_routes.py:257-258 | The first position of the (kind, id) item, or none iff absent. |
| LearningRoutes.NeighboursOf | routes/learning_routes.py:257-268 | Without the item, no neighbours. Otherwise prev and next are the adjacent entries, absent at the ends. |
| LearningRoutes.NextThenPrevious | routes/learning_routes.py:260-268 | With unique ids, the next item's previous is the current item. |
| LearningRoutes.CompletionIsUncapped | routes/learning_routes.py:162-165 | The completion percentage is not clamped: 3 of 2 gives 150. |
| LearningRoutes.PrerequisitesMet | routes/learning_routes.py:144-159 | Met iff every prerequisite has a record with a completion date. |
| Stats.PercentOrZero | routes/learning_routes.py:162-165 | 0 with no items; otherwise the truncation of 100 x part / whole, at most 100 when part <= whole. |
| Stats.PercentagesSumToHundred | static/utils/soil_sensor.py:136-138 | Three partition percentages sum to 100. |
| Stats.SlopeOfLinear | ai_models/model_utils.py:35-45 | The least-squares slope of a + b i is b. |
| Stats.ConstantHasZeroSlope | ai_models/model_utils.py:35-45 | A constant series has slope 0. |
| Stats.VarianceNonNegative | ai_models/model_utils.py:32 | The variance is non-negative. |
| Stats.MeanBetweenMinAndMax | ai_models/model_utils.py:29-31 | The mean lies between the minimum and the maximum. |
| Ranking.SortByKeySorted | static/utils/data_fusion.py:328 | The sort orders by key. |
| Ranking.SortByKeyPermutes | static/utils/data_fusion.py:328 | The sort is a permutation. |
| Ranking.SortByKeyStable | static/utils/data_fusion.py:328 | Items of equal key keep their order. |
| Ranking.SortByKeyDescendingOrdered | ai_models/edge_models.py:410 | The reverse sort is non-increasing and a permutation. |
| Ranking.SortByKeyDescendingStable | ai_models/edge_models.py:410 | The reverse sort keeps ties in their order, like Python's reverse=True. |
| Offline.OfflineDataManager.constructor | static/js/offline.js:18-29 | Starts with an empty store, no sync time and no queue. |
| Offline.OfflineDataManager.PendingRequests | static/js/offline.js:193-194 | The stored queue, or empty when there is none. |
| Offline.OfflineDataManager.SaveData | static/js/offline.js:32-43 | Stores the payload under the key with the current time, and changes nothing else. |
| Offline.OfflineDataManager.HasValidData | static/js/offline.js:59-68 | False when nothing is stored; otherwise true iff the age is at most the limit, inclusive. |
| Offline.ValidForLongerLimit | static/js/offline.js:59-68 | Data valid for a limit is valid for every longer one. |
| Offline.OfflineDataManager.ShouldFetchFromApi | static/js/offline.js:115-132 | Never offline. Online: fetch if data is missing or stale, or there is no sync time; otherwise iff the last sync is older than the limit. |
| Offline.OfflineDataManager.KeysToRefresh | static/js/offline.js:144-159 | The keys due for a refresh, in order; none offline. |
| Offline.OfflineDataManager.SyncDataWhenOnline | static/js/offline.js:140-163 | Online: the due keys are refreshed and the sync time set; offline, nothing changes. |
| Offline.OfflineDataManager.DueKeys | static/js/offline.js:144-159 | The loop keeps exactly the due keys, in order. |
| Offline.OfflineDataManager.QueueRequest | static/js/offline.js:217-234 | Appends exactly one request at the end and keeps the earlier ones in order. |
| Offline.OfflineDataManager.SubmitCachedRequests | static/js/offline.js:192-214 | Sends every queued request in order. An empty queue changes nothing; otherwise the queue is left empty. |
| Offline.OfflineDataManager.FetchWithOffline | static/js/offline.js:241-261 | The cached payload is returned iff a non-empty cache key is given, need not be refetched and has a stored payload. Otherwise, offline, a non-GET request is queued (and only then) and a GET gets the offline error; online, the request goes to the network. |
| Translations.CurrentLanguage | static/js/translations.js:229-235 | The requested language, else the stored one, else English. |
| Translations.TranslateKey | static/js/translations.js:234-249 | The language's non-empty entry, else English's, else the key itself. |
| Translations.UnknownLanguageFallsBackToEnglish | static/js/translations.js:238 | An unknown language behaves exactly like English. |
| Translations.TranslationComesFromTableOrKey | static/js/translations.js:234-249 | The result is always one of the table's texts for the key, or the key itself. |
| SustainabilityRoutes.AllowedFileByExtension | routes/sustainability_routes.py:29-32 | A name is judged by its last extension alone, in any letter case. |
| SustainabilityRoutes.PhotoPathExtension | routes/sustainability_routes.py:53-56 | The saved name keeps the upload's extension, lower-cased. |
| SustainabilityRoutes.SavedPaths | routes/sustainability_routes.py:49-56 | At most one path per considered upload. |
| SustainabilityRoutes.HandleImplementationPhotos | routes/sustainability_routes.py:34-67 | None iff nothing among the first three uploads is saved. Otherwise their paths, by upload index. |
| SustainabilityRoutes.OnlyFirstThreeUploadsCount | routes/sustainability_routes.py:49-51 | Uploads after the third never matter, and at most three are saved. |
| SustainabilityRoutes.UserQuest.CompleteStep | routes/sustainability_routes.py:489-558 | Only a quest in progress with a new step changes. Progress becomes the truncated share of steps done. The quest completes iff that share is 100, recording its points and badge. At completion the user's category points are unchanged, the total is recomputed as their sum, and the level is raised to that total's level when higher, else kept. |
| SustainabilityRoutes.QuestCompletesOnLastStep | routes/sustainability_routes.py:537-547 | The last step gives 100 %; any earlier step gives less. |
| SustainabilityRoutes.QuestProgressAsWritten | routes/sustainability_routes.py:528-537 | The progress when the count already includes the step just added and one is added again: at most 100 x (done + 2) / total. |
| SustainabilityRoutes.QuestCountedTwiceAsWritten | routes/sustainability_routes.py:528-541 | Counted twice, a one-step quest reads 200 and never completes, and a two-step quest completes after its first step. |

## Left out

- Network I/O is not modelled. This covers the weather, satellite and soil API calls, the token
  fetch, and the fetches issued by the offline cache. The fetch outcomes in offline.js are what the
  caller does with `FetchFromNetwork`; the fetch and its response handling after line 263 are not
  modelled.
- Random and placeholder data generation is not modelled: `get_sensor_data`,
  `get_historical_ndvi_series`, and the random draw of the yield jitter, which is the parameter `r`.
- `load_model` and the model files are not modelled; predictions use only the rule-based paths.
- Floating point is not modelled:
  - `round(...)` display rounding;
  - numpy's NaN/inf results on empty arrays, which become `None` results;
  - the rounding of `a / b * 100` before `int()`;
  - `np.linalg.lstsq` numerics, replaced by the closed-form least-squares slope over reals.
- ModelUtils.PreprocessSatellite: reports the variance where the source reports the standard
  deviation (its square root), because Dafny reals have no square root. The same holds for
  ModelUtils.PreprocessSoil.
- Timestamps and clocks are not modelled: the current time is a parameter, in hours for the
  offline cache.
- Web plumbing is not modelled: Flask routing, request parsing, rendering, flash messages,
  redirects and SQLAlchemy queries. Database rows arrive as parameters: the progress map, step
  counts, lesson rows and the quest's points.
- `secure_filename` and writing the photo to disk are not modelled. The model assumes the cleaned
  name keeps the original extension. That fails for a name whose stem is only dots or underscores:
  `secure_filename(".png")` is `"png"`, which has no '.', so the extension split at
  sustainability_routes.py:55 raises an error. The model instead saves such an upload as `..._0.png`.
- Learning-route ids given as a comma list are already parsed; the `int()` parsing is not modelled.
- Achievements are not modelled: `check_achievement_eligibility` and the achievement routines it
  calls. So are `complete_quiz` and `get_user_learning_stats`, which are outside this engine.
- `translatePage` (DOM updates) is not modelled, nor the contents of the translation table, which
  is a parameter.
- Payloads are JSON text in the offline store. JSON serialisation, localStorage quota errors
  (`saveData` returning false) and parse failures in `getData` are not modelled.
- "User not found" and "module not found" early returns of the gamification helpers are not
  modelled. The model's methods receive the records.
- Gamification.LearningProgress.CompleteLesson: the module-completion test receives the module's
  lesson and quiz ids as parameters instead of querying them.
- SustainabilityRoutes.UserQuest.CompleteStep: the quest's points are awarded under the
  "sustainability" category, which `award_points` ignores. This is modelled as written: no
  category total changes, and only the recomputed total and level are stated.
- SustainabilityRoutes.UserQuest.CompleteStep: assumes the count of completed steps
  (sustainability_routes.py:532-535) does not yet include the step added at line 528, so the new
  step is counted once (`completedBefore + 1`). Whether the query sees the pending row depends on
  the session's autoflush setting, which is configured outside the files modelled here; see
  Findings for the other case.
- EdgeModels.PredictIrrigationNeeds: the result has no `recommendation` sentence
  (edge_models.py:229-251). That sentence embeds the amount formatted to one decimal, and decimal
  formatting of reals is not modelled, so the irrigation summary of `ModelUtils.Summarize` is not
  related to a prediction.
- ModelUtils.SatelliteFeatures.Entries: the list entries `ndvi_values` and `ndvi_dates`
  (model_utils.py:25-26) are dropped, because they are not real-valued and `combine_features`
  ignores them (`ModelUtils.ListEntriesNotInVector`).
- Text.ToLower: lower-cases ASCII letters only, while Python's `str.lower` also lower-cases other
  letters. Crop names and file extensions with non-ASCII capitals are therefore not modelled
  faithfully (used by `EdgeModels.YieldLookupIgnoresCase` and `SustainabilityRoutes.AllowedFile`).

## Findings

| source | as written | input that shows it | evidently intended | confidence | as-written member | corrected member |
|---|---|---|---|---|---|---|
| static/utils/weather_forecasting.py:375-385 | When the week's total rain lies inside a crop's rain range, the rain score reads `conditions["optimal_rain"]`, which no crop row defines (lines 313-354). The KeyError is caught at lines 424-426, so the whole planting recommendation becomes None. | One forecast day with 20 mm of rain and readable temperatures and humidity, crop list ["maize"] (maize's rain range contains 20) | An optimum inside the range, here its midpoint. 20 mm then scores 0.5 for maize, and the recommendation lists maize. | not executed | WeatherForecasting.RainKeyErrorExample | WeatherForecasting.RainSuitability |
| routes/sustainability_routes.py:528-541 | The new step is added to the session at line 528, then the completed steps are counted and 1 is added for the new step. If the session flushes before the count query (the default autoflush), the new step is counted twice. | A quest with one step: completing it gives int(2/1 x 100) = 200, never 100, so the quest is never completed. A quest with two steps completes after its first step. | Count the new step once: the last step gives exactly 100 and earlier steps less. | not executed; depends on the session's autoflush setting, configured outside the modelled files | SustainabilityRoutes.QuestCountedTwiceAsWritten | SustainabilityRoutes.QuestCompletesOnLastStep |
