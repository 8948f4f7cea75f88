/**
 * Per-reading risk classification of monitoring_pipeline.py: one detector per
 * monitored dimension and the combined overall status. Every threshold is a
 * strict `>`; temperatures are exact reals.
 */
module Classifier {

  /**
   * The leading icons of the detector texts. Each text is an icon, a space, the
   * word the dashboard's badge shows for the same level, and the advice.
   */
  const Red: char := '\U{1F534}'
  const Yellow: char := '\U{1F7E1}'
  const Green: char := '\U{1F7E2}'

  const AqiUnsafeText: string := [Red, ' '] + "UNSAFE AIR" + " \U{2014} Avoid outdoor activity"
  const AqiModerateText: string := [Yellow, ' '] + "MODERATE" + " \U{2014} Sensitive groups should be cautious"
  const AqiGoodText: string := [Green, ' '] + "GOOD" + " \U{2014} Air quality is safe"

  const TempHeatText: string := [Red, ' '] + "HEAT RISK" + " \U{2014} Stay hydrated, avoid direct sun"
  const TempWarmText: string := [Yellow, ' '] + "WARM" + " \U{2014} Drink water regularly"
  const TempNormalText: string := [Green, ' '] + "NORMAL" + " \U{2014} Temperature is comfortable"

  const HumidHighText: string := [Red, ' '] + "HIGH MOISTURE" + " ALERT \U{2014} Risk of mold, heat stress"
  const HumidElevatedText: string := [Yellow, ' '] + "ELEVATED" + " \U{2014} Monitor for discomfort"
  const HumidNormalText: string := [Green, ' '] + "NORMAL" + " \U{2014} Humidity is comfortable"

  /** The advisory for an air quality index. */
  function DetectAqiRisk(aqi: int): (r: string)
    ensures r == AqiUnsafeText <==> aqi > 150
    ensures r == AqiModerateText <==> 100 < aqi <= 150
    ensures r == AqiGoodText <==> aqi <= 100
    ensures |r| > 2 && r[1] == ' '
    ensures r[0] == Red <==> aqi > 150
    ensures r[0] == Green <==> aqi <= 100
  {
    if aqi > 150 then AqiUnsafeText
    else if aqi > 100 then AqiModerateText
    else AqiGoodText
  }

  /** The advisory for a temperature in degrees Celsius. */
  function DetectTempRisk(temp: real): (r: string)
    ensures r == TempHeatText <==> temp > 40.0
    ensures r == TempWarmText <==> 35.0 < temp <= 40.0
    ensures r == TempNormalText <==> temp <= 35.0
    ensures |r| > 2 && r[1] == ' '
    ensures r[0] == Red <==> temp > 40.0
    ensures r[0] == Green <==> temp <= 35.0
  {
    if temp > 40.0 then TempHeatText
    else if temp > 35.0 then TempWarmText
    else TempNormalText
  }

  /** The advisory for a relative humidity in percent. */
  function DetectHumidityRisk(humidity: int): (r: string)
    ensures r == HumidHighText <==> humidity > 80
    ensures r == HumidElevatedText <==> 60 < humidity <= 80
    ensures r == HumidNormalText <==> humidity <= 60
    ensures |r| > 2 && r[1] == ' '
    ensures r[0] == Red <==> humidity > 80
    ensures r[0] == Green <==> humidity <= 60
  {
    if humidity > 80 then HumidHighText
    else if humidity > 60 then HumidElevatedText
    else HumidNormalText
  }

  /** Some dimension is past its danger threshold. */
  predicate AnyDanger(aqi: int, temp: real, humidity: int)
  {
    aqi > 150 || temp > 40.0 || humidity > 80
  }

  /** Some dimension is past its caution threshold. */
  predicate AnyCaution(aqi: int, temp: real, humidity: int)
  {
    aqi > 100 || temp > 35.0 || humidity > 60
  }

  /** The combined status written as `overall_status`. */
  function OverallStatus(aqi: int, temp: real, humidity: int): (r: string)
    ensures r == "UNSAFE" <==> AnyDanger(aqi, temp, humidity)
    ensures r == "CAUTION" <==> !AnyDanger(aqi, temp, humidity) && AnyCaution(aqi, temp, humidity)
    ensures r == "SAFE" <==> !AnyCaution(aqi, temp, humidity)
  {
    if aqi > 150 || temp > 40.0 || humidity > 80 then "UNSAFE"
    else if aqi > 100 || temp > 35.0 || humidity > 60 then "CAUTION"
    else "SAFE"
  }

  /**
   * The overall status agrees with the three detectors: UNSAFE exactly when some
   * detector shows its red text, SAFE exactly when all three show their green
   * text, CAUTION otherwise.
   */
  lemma OverallStatusAgreesWithDetectors(aqi: int, temp: real, humidity: int)
    ensures var a, t, h := DetectAqiRisk(aqi), DetectTempRisk(temp), DetectHumidityRisk(humidity);
      && (OverallStatus(aqi, temp, humidity) == "UNSAFE" <==> a[0] == Red || t[0] == Red || h[0] == Red)
      && (OverallStatus(aqi, temp, humidity) == "SAFE" <==> a[0] == Green && t[0] == Green && h[0] == Green)
      && (OverallStatus(aqi, temp, humidity) == "CAUTION" <==>
            !(a[0] == Red || t[0] == Red || h[0] == Red) && (a[0] == Yellow || t[0] == Yellow || h[0] == Yellow))
  {
  }

  /** Boundary readings: every threshold is strict. */
  lemma ThresholdBoundaries()
    ensures DetectAqiRisk(150) == AqiModerateText
    ensures DetectAqiRisk(150)[0] != Red && DetectAqiRisk(151)[0] == Red
    ensures DetectAqiRisk(100) == AqiGoodText && DetectAqiRisk(101) == AqiModerateText
    ensures DetectTempRisk(35.0) == TempNormalText && DetectTempRisk(35.1) == TempWarmText
    ensures DetectTempRisk(40.0) == TempWarmText && DetectTempRisk(40.1) == TempHeatText
    ensures DetectHumidityRisk(80) == HumidElevatedText && DetectHumidityRisk(81) == HumidHighText
    ensures OverallStatus(150, 0.0, 0) == "CAUTION" && OverallStatus(151, 0.0, 0) == "UNSAFE"
    ensures OverallStatus(101, 0.0, 0) == "CAUTION" && OverallStatus(100, 0.0, 0) == "SAFE"
    ensures OverallStatus(0, 35.0, 0) == "SAFE" && OverallStatus(0, 35.1, 0) == "CAUTION"
    ensures OverallStatus(0, 0.0, 80) == "CAUTION" && OverallStatus(0, 0.0, 81) == "UNSAFE"
  {
  }
}
