/**
 * The measurement records the engine receives. Each field the source reads from a dict is an
 * Option: None stands for an absent key, so every `.get(key, default)` and every `[key]` lookup
 * of the source can be written out with its own default or its own failure.
 */
module Records {
  import opened Wrappers

  /** A forecast day's `temperature`: either the nested object or a bare number. */
  datatype Temperature =
    | TempDict(day: Option<real>, min: Option<real>, max: Option<real>)
    | TempScalar(value: real)

  /** One day (or the current conditions) of a weather payload. */
  datatype WeatherDay = WeatherDay(temperature: Option<Temperature>, humidity: Option<real>, rain: Option<real>)

  /** One soil-sensor reading. */
  datatype SoilReading = SoilReading(
    timestamp: Option<string>,
    moisture: Option<real>,
    temperature: Option<real>,
    ph: Option<real>,
    electricalConductivity: Option<real>,
    nitrogen: Option<real>,
    phosphorus: Option<real>,
    potassium: Option<real>)

  /** `day["temperature"]["day"]`: present only when the temperature is an object with a `day` key. */
  function DayTemperature(d: WeatherDay): (t: Option<real>)
    ensures t.Some? <==> d.temperature.Some? && d.temperature.value.TempDict? && d.temperature.value.day.Some?
  {
    match d.temperature
    case Some(TempDict(day, _, _)) => day
    case _ => None
  }

  /** `day["temperature"]["min"]`, failing like the source when the key path is missing. */
  function MinTemperature(d: WeatherDay): (t: Option<real>)
    ensures t.Some? <==> d.temperature.Some? && d.temperature.value.TempDict? && d.temperature.value.min.Some?
  {
    match d.temperature
    case Some(TempDict(_, min, _)) => min
    case _ => None
  }

  /** `day["temperature"]["max"]`, failing like the source when the key path is missing. */
  function MaxTemperature(d: WeatherDay): (t: Option<real>)
    ensures t.Some? <==> d.temperature.Some? && d.temperature.value.TempDict? && d.temperature.value.max.Some?
  {
    match d.temperature
    case Some(TempDict(_, _, max)) => max
    case _ => None
  }

  /** `xs[:n]`: the first n elements, or all of them when there are fewer. */
  function Prefix<T>(xs: seq<T>, n: nat): (p: seq<T>)
    ensures |p| == if |xs| <= n then |xs| else n
    ensures forall i :: 0 <= i < |p| ==> p[i] == xs[i]
  {
    if |xs| <= n then xs else xs[..n]
  }

  /** The values of a list of `d[key]` lookups: present only when every lookup succeeds. */
  function AllPresent(xs: seq<Option<real>>): (r: Option<seq<real>>)
    ensures r.Some? <==> forall i :: 0 <= i < |xs| ==> xs[i].Some?
    ensures r.Some? ==> |r.value| == |xs| && forall i :: 0 <= i < |xs| ==> r.value[i] == xs[i].value
  {
    if xs == [] then Some([])
    else
      match (xs[0], AllPresent(xs[1..]))
      case (Some(x), Some(rest)) => Some([x] + rest)
      case _ => None
  }

  /** `[day.get("rain", 0) for day in days]`. */
  function Rains(days: seq<WeatherDay>): (rs: seq<real>)
    ensures |rs| == |days|
    ensures forall i :: 0 <= i < |days| ==> rs[i] == days[i].rain.GetOr(0.0)
  {
    seq(|days|, i requires 0 <= i < |days| => days[i].rain.GetOr(0.0))
  }

  function DayTemperatures(days: seq<WeatherDay>): (ts: seq<Option<real>>)
    ensures |ts| == |days| && forall i :: 0 <= i < |days| ==> ts[i] == DayTemperature(days[i])
  {
    seq(|days|, i requires 0 <= i < |days| => DayTemperature(days[i]))
  }

  function MinTemperatures(days: seq<WeatherDay>): (ts: seq<Option<real>>)
    ensures |ts| == |days| && forall i :: 0 <= i < |days| ==> ts[i] == MinTemperature(days[i])
  {
    seq(|days|, i requires 0 <= i < |days| => MinTemperature(days[i]))
  }

  function MaxTemperatures(days: seq<WeatherDay>): (ts: seq<Option<real>>)
    ensures |ts| == |days| && forall i :: 0 <= i < |days| ==> ts[i] == MaxTemperature(days[i])
  {
    seq(|days|, i requires 0 <= i < |days| => MaxTemperature(days[i]))
  }

  function Humidities(days: seq<WeatherDay>): (hs: seq<Option<real>>)
    ensures |hs| == |days| && forall i :: 0 <= i < |days| ==> hs[i] == days[i].humidity
  {
    seq(|days|, i requires 0 <= i < |days| => days[i].humidity)
  }
}
