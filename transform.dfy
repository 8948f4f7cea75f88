/**
 * `PathwaySimulator._transform_row` of monitoring_pipeline.py: coerce the three
 * numeric fields of a decoded reading with Python's `int()` and `float()`, fill
 * in the defaults for missing fields, classify, and build the nine-field record.
 */
module Transform {
  import opened Wrappers
  import opened JsonModel
  import opened PyText
  import opened Classifier

  /** The exception a coercion raises. */
  datatype CoercionError =
    | TypeMismatch    // TypeError: None, a list or a dict handed to int()/float()
    | BadLiteral      // ValueError: a string int()/float() does not accept
    | NonFiniteValue  // float() of "inf"/"nan": accepted by Python, not representable here

  /** Why `_transform_row` raised. */
  datatype TransformError =
    | NotAnObject                               // AttributeError: the decoded value has no `.get`
    | BadField(key: string, cause: CoercionError)

  /** `x` rounded toward zero, as `int()` does to a float. */
  function TruncateToInt(x: real): (r: int)
    ensures x >= 0.0 ==> r as real <= x < r as real + 1.0
    ensures x < 0.0 ==> r as real - 1.0 < x <= r as real
  {
    if x >= 0.0 then x.Floor else -((-x).Floor)
  }

  /** `int(v)` for a value `json.loads` produced. */
  function PyInt(v: Json): (r: Result<int, CoercionError>)
    ensures r.Err? <==> v.JNull? || v.JArray? || v.JObject? || (v.JString? && ParseIntText(v.s).None?)
    ensures v.JInt? ==> r == Ok(v.i)
    ensures v.JBool? ==> r == Ok(if v.b then 1 else 0)
    ensures v.JFloat? ==> r == Ok(TruncateToInt(v.f)) && -1.0 < r.value as real - v.f < 1.0
    ensures v.JString? && ParseIntText(v.s).Some? ==> r == Ok(ParseIntText(v.s).value)
  {
    match v
    case JNull => Err(TypeMismatch)
    case JBool(b) => Ok(if b then 1 else 0)
    case JInt(i) => Ok(i)
    case JFloat(f) => Ok(TruncateToInt(f))
    case JString(s) =>
      (match ParseIntText(s)
       case Some(n) => Ok(n)
       case None => Err(BadLiteral))
    case JArray(_) => Err(TypeMismatch)
    case JObject(_) => Err(TypeMismatch)
  }

  /** `float(v)` for a value `json.loads` produced. */
  function PyFloat(v: Json): (r: Result<real, CoercionError>)
    ensures v.JNull? || v.JArray? || v.JObject? ==> r == Err(TypeMismatch)
    ensures v.JInt? ==> r == Ok(v.i as real)
    ensures v.JFloat? ==> r == Ok(v.f)
    ensures v.JBool? ==> r == Ok(if v.b then 1.0 else 0.0)
    ensures r.Err? <==> v.JNull? || v.JArray? || v.JObject? || (v.JString? && !ParseFloatText(v.s).Finite?)
    ensures v.JString? && ParseFloatText(v.s).Finite? ==> r == Ok(ParseFloatText(v.s).value)
  {
    match v
    case JNull => Err(TypeMismatch)
    case JBool(b) => Ok(if b then 1.0 else 0.0)
    case JInt(i) => Ok(i as real)
    case JFloat(f) => Ok(f)
    case JString(s) =>
      (match ParseFloatText(s)
       case Finite(x) => Ok(x)
       case NonFinite => Err(NonFiniteValue)
       case Invalid => Err(BadLiteral))
    case JArray(_) => Err(TypeMismatch)
    case JObject(_) => Err(TypeMismatch)
  }

  /** Whatever `int()` accepts, `float()` accepts; apart from a float, with the same value. */
  lemma IntCoercibleIsFloatCoercible(v: Json)
    requires PyInt(v).Ok?
    ensures PyFloat(v).Ok?
    ensures !v.JFloat? ==> PyFloat(v).value == PyInt(v).value as real
  {
    if v.JString? {
      IntTextIsFloatText(v.s);
    }
  }

  /** One line of the output log: the reading, its four classifications. */
  datatype Enriched = Enriched(
    timestamp: Json,
    sensorId: Json,
    aqi: int,
    temperatureC: real,
    humidityPct: int,
    aqiStatus: string,
    tempStatus: string,
    humidityStatus: string,
    overallStatus: string)

  /** The statuses of a record are those of its own coerced readings. */
  predicate Classified(e: Enriched)
  {
    && e.aqiStatus == DetectAqiRisk(e.aqi)
    && e.tempStatus == DetectTempRisk(e.temperatureC)
    && e.humidityStatus == DetectHumidityRisk(e.humidityPct)
    && e.overallStatus == OverallStatus(e.aqi, e.temperatureC, e.humidityPct)
  }

  /** `_transform_row(row)`: the coercions run in the order aqi, temperature, humidity. */
  function TransformRow(row: Json): (r: Result<Enriched, TransformError>)
    ensures !row.JObject? ==> r == Err(NotAnObject)
    ensures row.JObject? ==>
      var m := row.members;
      var a, t, h := PyInt(Get(m, "aqi", JInt(0))), PyFloat(Get(m, "temperature_c", JInt(0))), PyInt(Get(m, "humidity_pct", JInt(0)));
      && (r.Ok? <==> a.Ok? && t.Ok? && h.Ok?)
      && (a.Err? ==> r == Err(BadField("aqi", a.error)))
      && (a.Ok? && t.Err? ==> r == Err(BadField("temperature_c", t.error)))
      && (a.Ok? && t.Ok? && h.Err? ==> r == Err(BadField("humidity_pct", h.error)))
      && (r.Ok? ==> r.value.aqi == a.value && r.value.temperatureC == t.value && r.value.humidityPct == h.value)
    ensures r.Ok? ==>
      var m, e := row.members, r.value;
      && Classified(e)
      && ("aqi" !in m ==> e.aqi == 0)
      && ("temperature_c" !in m ==> e.temperatureC == 0.0)
      && ("humidity_pct" !in m ==> e.humidityPct == 0)
      && e.timestamp == (if "timestamp" in m then m["timestamp"] else JString(""))
      && e.sensorId == (if "sensor_id" in m then m["sensor_id"] else JString("UNKNOWN"))
  {
    match row
    case JObject(m) =>
      (match PyInt(Get(m, "aqi", JInt(0)))
       case Err(x) => Err(BadField("aqi", x))
       case Ok(aqi) =>
         match PyFloat(Get(m, "temperature_c", JInt(0)))
         case Err(x) => Err(BadField("temperature_c", x))
         case Ok(temp) =>
           match PyInt(Get(m, "humidity_pct", JInt(0)))
           case Err(x) => Err(BadField("humidity_pct", x))
           case Ok(humid) =>
             Ok(Enriched(
               Get(m, "timestamp", JString("")),
               Get(m, "sensor_id", JString("UNKNOWN")),
               aqi, temp, humid,
               DetectAqiRisk(aqi), DetectTempRisk(temp), DetectHumidityRisk(humid),
               OverallStatus(aqi, temp, humid))))
    case _ => Err(NotAnObject)
  }

  /** The keys of every object written to the output log. */
  const OutputKeys: set<string> := {
    "timestamp", "sensor_id", "aqi", "temperature_c", "humidity_pct",
    "aqi_status", "temp_status", "humidity_status", "overall_status"}

  /** The dict `_transform_row` returns, which `json.dumps` writes as one output line. */
  function AsObject(e: Enriched): (j: Json)
    ensures j.JObject? && j.members.Keys == OutputKeys
    ensures j.members["overall_status"] == JString(e.overallStatus)
    ensures j.members["aqi"] == JInt(e.aqi) && j.members["humidity_pct"] == JInt(e.humidityPct)
    ensures j.members["temperature_c"] == JFloat(e.temperatureC)
    ensures j.members["timestamp"] == e.timestamp && j.members["sensor_id"] == e.sensorId
    ensures j.members["aqi_status"] == JString(e.aqiStatus) && j.members["temp_status"] == JString(e.tempStatus)
    ensures j.members["humidity_status"] == JString(e.humidityStatus)
  {
    JObject(map[
      "timestamp" := e.timestamp,
      "sensor_id" := e.sensorId,
      "aqi" := JInt(e.aqi),
      "temperature_c" := JFloat(e.temperatureC),
      "humidity_pct" := JInt(e.humidityPct),
      "aqi_status" := JString(e.aqiStatus),
      "temp_status" := JString(e.tempStatus),
      "humidity_status" := JString(e.humidityStatus),
      "overall_status" := JString(e.overallStatus)])
  }

  /**
   * A reading the producer writes, with every field present and every number
   * already of the right type, is transformed without error and keeps its values.
   */
  lemma WellTypedReadingTransforms(ts: string, sensor: string, aqi: int, temp: real, humidity: int)
    ensures var row := JObject(map["timestamp" := JString(ts), "aqi" := JInt(aqi),
                                   "temperature_c" := JFloat(temp), "humidity_pct" := JInt(humidity),
                                   "sensor_id" := JString(sensor)]);
      && TransformRow(row).Ok?
      && TransformRow(row).value.aqi == aqi
      && TransformRow(row).value.temperatureC == temp
      && TransformRow(row).value.humidityPct == humidity
      && TransformRow(row).value.timestamp == JString(ts)
      && TransformRow(row).value.sensorId == JString(sensor)
  {
  }

  /** An empty object takes every default: no timestamp, sensor UNKNOWN, all readings zero, SAFE. */
  lemma EmptyObjectDefaults()
    ensures TransformRow(JObject(map[])) ==
      Ok(Enriched(JString(""), JString("UNKNOWN"), 0, 0.0, 0,
                  AqiGoodText, TempNormalText, HumidNormalText, "SAFE"))
  {
  }

  /** The reading of the end-to-end scenario is UNSAFE in every dimension. */
  lemma EndToEndScenario()
    ensures var row := JObject(map["timestamp" := JString("T1"), "aqi" := JInt(200),
                                   "temperature_c" := JFloat(42.0), "humidity_pct" := JInt(90),
                                   "sensor_id" := JString("S1")]);
      && TransformRow(row).Ok?
      && TransformRow(row).value.overallStatus == "UNSAFE"
      && TransformRow(row).value.aqiStatus == AqiUnsafeText
      && TransformRow(row).value.tempStatus == TempHeatText
      && TransformRow(row).value.humidityStatus == HumidHighText
  {
  }
}
