/**
 * The risk logic of dashboard.py, which reads the enriched records back and
 * shows them: the overall risk level, the banner for a level, the badge of each
 * metric card and the list of active alerts for the latest reading.
 *
 * The source passes levels around as the strings "safe", "warn" and "danger",
 * and derives CSS class names from them ("sub-danger", "status-warn", ...).
 * Here a level is a `Level` value; `Name` gives its string, and the CSS class
 * names are rendered from it.
 */
module Dashboard {
  import opened Wrappers
  import opened PyText
  import opened Classifier

  /** The three risk levels of the dashboard. */
  datatype Level = Safe | Warn | Danger

  /** The string the source uses for a level. */
  function Name(l: Level): (s: string)
    ensures |s| > 0
  {
    match l
    case Safe => "safe"
    case Warn => "warn"
    case Danger => "danger"
  }

  /** Different levels have different names, so a name denotes at most one level. */
  lemma NamesDistinct(l: Level, m: Level)
    ensures Name(l) == Name(m) <==> l == m
  {
    assert Name(Safe)[0] == 's' && Name(Warn)[0] == 'w' && Name(Danger)[0] == 'd';
  }

  /** `get_risk_level` */
  function RiskLevel(aqi: int, temp: real, humid: int): (r: Level)
    ensures r == Danger <==> AnyDanger(aqi, temp, humid)
    ensures r == Warn <==> !AnyDanger(aqi, temp, humid) && AnyCaution(aqi, temp, humid)
    ensures r == Safe <==> !AnyCaution(aqi, temp, humid)
  {
    if aqi > 150 || temp > 40.0 || humid > 80 then Danger
    else if aqi > 100 || temp > 35.0 || humid > 60 then Warn
    else Safe
  }

  /**
   * The dashboard's level and the pipeline's `overall_status` are the same
   * classification under two names, whichever reading is shown.
   */
  lemma RiskLevelMirrorsOverallStatus(aqi: int, temp: real, humid: int)
    ensures RiskLevel(aqi, temp, humid) == Danger <==> OverallStatus(aqi, temp, humid) == "UNSAFE"
    ensures RiskLevel(aqi, temp, humid) == Warn <==> OverallStatus(aqi, temp, humid) == "CAUTION"
    ensures RiskLevel(aqi, temp, humid) == Safe <==> OverallStatus(aqi, temp, humid) == "SAFE"
  {
  }

  /** The display settings of the status banner; `style` names its two CSS classes. */
  datatype Banner = Banner(icon: string, text: string, subtitle: string, style: Level)

  /** The `banner_css` class of a banner: "status-" and the style's name. */
  function BannerCss(b: Banner): string
  {
    "status-" + Name(b.style)
  }

  /** The `color_css` class of a banner: "banner-", the style's name, "-color". */
  function ColorCss(b: Banner): string
  {
    "banner-" + Name(b.style) + "-color"
  }

  const CheckIcon: string := "\U{2705}"
  const WarningIcon: string := "\U{26A0}\U{FE0F}"
  const SirenIcon: string := "\U{1F6A8}"
  const HourglassIcon: string := "\U{23F3}"

  /** The banner shown for a level string that is not a level. */
  const LoadingBanner: Banner := Banner(HourglassIcon, "LOADING", "", Safe)

  /** `status_config`: the banner of a level, the LOADING banner for any other string. */
  function StatusConfig(level: string): (b: Banner)
    ensures forall l :: level == Name(l) ==> b.style == l && b.icon != HourglassIcon
    ensures (forall l :: level != Name(l)) ==> b == LoadingBanner
    ensures b.icon == SirenIcon <==> level == Name(Danger)
  {
    if level == Name(Safe) then
      Banner(CheckIcon, "ALL SYSTEMS SAFE", "All environmental conditions within normal thresholds", Safe)
    else if level == Name(Warn) then
      Banner(WarningIcon, "CAUTION ADVISORY", "One or more conditions approaching unsafe thresholds", Warn)
    else if level == Name(Danger) then
      Banner(SirenIcon, "RISK DETECTED", "Immediate attention required \U{2014} unsafe conditions active", Danger)
    else
      LoadingBanner
  }

  /**
   * The banner of every reading is a real one, styled after the reading's own
   * level: LOADING never shows for data, and the siren shows exactly when some
   * metric is past its danger threshold.
   */
  lemma ReadingBanner(aqi: int, temp: real, humid: int)
    ensures var level := RiskLevel(aqi, temp, humid);
      var b := StatusConfig(Name(level));
      && b != LoadingBanner
      && b.style == level
      && BannerCss(b) == "status-" + Name(level)
      && (b.icon == SirenIcon <==> AnyDanger(aqi, temp, humid))
  {
    var level := RiskLevel(aqi, temp, humid);
    NamesDistinct(level, Danger);
  }

  /** A metric card's badge: its level names the `sub-` CSS class, `word` is its text. */
  datatype Badge = Badge(level: Level, word: string)

  /** The CSS class of a badge: "sub-" and its level's name. */
  function BadgeCss(b: Badge): string
  {
    "sub-" + Name(b.level)
  }

  /** `aqi_badge` */
  function AqiBadge(aqi: int): (b: Badge)
    ensures b.level == Danger <==> aqi > 150
    ensures b.level == Warn <==> 100 < aqi <= 150
    ensures b.level == Safe <==> aqi <= 100
  {
    if aqi > 150 then Badge(Danger, "UNSAFE AIR")
    else if aqi > 100 then Badge(Warn, "MODERATE")
    else Badge(Safe, "GOOD")
  }

  /** `temp_badge` */
  function TempBadge(temp: real): (b: Badge)
    ensures b.level == Danger <==> temp > 40.0
    ensures b.level == Warn <==> 35.0 < temp <= 40.0
    ensures b.level == Safe <==> temp <= 35.0
  {
    if temp > 40.0 then Badge(Danger, "HEAT RISK")
    else if temp > 35.0 then Badge(Warn, "WARM")
    else Badge(Safe, "NORMAL")
  }

  /** `humid_badge` */
  function HumidBadge(humid: int): (b: Badge)
    ensures b.level == Danger <==> humid > 80
    ensures b.level == Warn <==> 60 < humid <= 80
    ensures b.level == Safe <==> humid <= 60
  {
    if humid > 80 then Badge(Danger, "HIGH MOISTURE")
    else if humid > 60 then Badge(Warn, "ELEVATED")
    else Badge(Safe, "NORMAL")
  }

  /** The icon that opens a detector text of the pipeline for a badge level. */
  function LevelIcon(l: Level): char
  {
    match l
    case Safe => Green
    case Warn => Yellow
    case Danger => Red
  }

  /** A text made of an icon, a space, `word` and `rest` has `word` right after the icon. */
  lemma WordAfterIcon(icon: char, word: string, rest: string, text: string)
    requires text == [icon, ' '] + word + rest
    ensures |text| >= 2 && word <= text[2..]
  {
    assert text[2..] == word + rest;
  }

  /**
   * A badge says what the pipeline's detector says about the same reading: the
   * detector's text opens with the icon of the badge's level, followed by the
   * badge's word.
   */
  lemma BadgesAgreeWithDetectors(aqi: int, temp: real, humid: int)
    ensures DetectAqiRisk(aqi)[0] == LevelIcon(AqiBadge(aqi).level)
    ensures DetectTempRisk(temp)[0] == LevelIcon(TempBadge(temp).level)
    ensures DetectHumidityRisk(humid)[0] == LevelIcon(HumidBadge(humid).level)
    ensures AqiBadge(aqi).word <= DetectAqiRisk(aqi)[2..]
    ensures TempBadge(temp).word <= DetectTempRisk(temp)[2..]
    ensures HumidBadge(humid).word <= DetectHumidityRisk(humid)[2..]
  {
    if aqi > 150 {
      WordAfterIcon(Red, "UNSAFE AIR", " \U{2014} Avoid outdoor activity", AqiUnsafeText);
    } else if aqi > 100 {
      WordAfterIcon(Yellow, "MODERATE", " \U{2014} Sensitive groups should be cautious", AqiModerateText);
    } else {
      WordAfterIcon(Green, "GOOD", " \U{2014} Air quality is safe", AqiGoodText);
    }
    if temp > 40.0 {
      WordAfterIcon(Red, "HEAT RISK", " \U{2014} Stay hydrated, avoid direct sun", TempHeatText);
    } else if temp > 35.0 {
      WordAfterIcon(Yellow, "WARM", " \U{2014} Drink water regularly", TempWarmText);
    } else {
      WordAfterIcon(Green, "NORMAL", " \U{2014} Temperature is comfortable", TempNormalText);
    }
    if humid > 80 {
      WordAfterIcon(Red, "HIGH MOISTURE", " ALERT \U{2014} Risk of mold, heat stress", HumidHighText);
    } else if humid > 60 {
      WordAfterIcon(Yellow, "ELEVATED", " \U{2014} Monitor for discomfort", HumidElevatedText);
    } else {
      WordAfterIcon(Green, "NORMAL", " \U{2014} Humidity is comfortable", HumidNormalText);
    }
  }

  /** The overall level is the most severe of the three badge levels. */
  lemma LevelFromBadges(aqi: int, temp: real, humid: int)
    ensures RiskLevel(aqi, temp, humid) == Danger <==>
      AqiBadge(aqi).level == Danger || TempBadge(temp).level == Danger || HumidBadge(humid).level == Danger
    ensures RiskLevel(aqi, temp, humid) == Safe <==>
      AqiBadge(aqi).level == Safe && TempBadge(temp).level == Safe && HumidBadge(humid).level == Safe
  {
  }

  /** One entry of the alert list; `kind` is its `type`. */
  datatype Alert = Alert(kind: Level, icon: string, title: string, advice: string)

  const AirIcon: string := "\U{1F4A8}"
  const ThermometerIcon: string := "\U{1F321}\U{FE0F}"
  const DropletIcon: string := "\U{1F4A7}"

  const AqiDangerAdvice: string :=
    "Avoid all outdoor activity. Wear N95 mask if you must go outside. Close windows and use air purifiers indoors."
  const AqiWarnAdvice: string :=
    "Sensitive groups (elderly, children, asthma patients) should limit outdoor exposure."
  const TempDangerAdvice: string :=
    "Drink water every 20 minutes. Stay in shade or air-conditioned spaces. Avoid strenuous activity outdoors."
  const TempWarnAdvice: string :=
    "Stay hydrated. Wear light clothing. Check on vulnerable individuals."
  const HumidDangerAdvice: string :=
    "Risk of mold growth and heat stress. Use dehumidifiers. Ensure adequate ventilation."
  const HumidWarnAdvice: string :=
    "Monitor for discomfort. Ensure good airflow. Stay hydrated."

  /** The entry shown when no metric is past a threshold. */
  const AllClear: Alert := Alert(Safe, CheckIcon, "ALL CLEAR \U{2014} No active risks detected",
    "All readings are within safe thresholds. Continue routine monitoring.")

  /** `s` ends with `suffix`. */
  predicate EndsWith(s: string, suffix: string)
  {
    |suffix| <= |s| && s[|s| - |suffix|..] == suffix
  }

  /** The alert of the air quality block of `build_alerts`, if any: the AQI badge's level, with the AQI in the title. */
  function AqiAlert(aqi: int): (a: Option<Alert>)
    ensures a.Some? <==> aqi > 100
    ensures a.Some? ==> a.value.icon == AirIcon && a.value.kind == AqiBadge(aqi).level
    ensures a.Some? ==> EndsWith(a.value.title, IntToText(aqi))
  {
    if aqi > 150 then
      Some(Alert(Danger, AirIcon, "UNSAFE AIR QUALITY  \U{2014}  AQI " + IntToText(aqi), AqiDangerAdvice))
    else if aqi > 100 then
      Some(Alert(Warn, AirIcon, "MODERATE AIR QUALITY  \U{2014}  AQI " + IntToText(aqi), AqiWarnAdvice))
    else None
  }

  /**
   * The alert of the temperature block, if any; `formatTemp` is the `:.1f`
   * rendering of the temperature.
   */
  function TempAlert(temp: real, formatTemp: real -> string): (a: Option<Alert>)
    ensures a.Some? <==> temp > 35.0
    ensures a.Some? ==> a.value.icon == ThermometerIcon && a.value.kind == TempBadge(temp).level
    ensures a.Some? ==> EndsWith(a.value.title, formatTemp(temp) + "\U{B0}C")
  {
    if temp > 40.0 then
      Some(Alert(Danger, ThermometerIcon, "EXTREME HEAT RISK  \U{2014}  " + formatTemp(temp) + "\U{B0}C", TempDangerAdvice))
    else if temp > 35.0 then
      Some(Alert(Warn, ThermometerIcon, "ELEVATED TEMPERATURE  \U{2014}  " + formatTemp(temp) + "\U{B0}C", TempWarnAdvice))
    else None
  }

  /** The alert of the humidity block, if any. */
  function HumidAlert(humid: int): (a: Option<Alert>)
    ensures a.Some? <==> humid > 60
    ensures a.Some? ==> a.value.icon == DropletIcon && a.value.kind == HumidBadge(humid).level
    ensures a.Some? ==> EndsWith(a.value.title, IntToText(humid) + "%")
  {
    if humid > 80 then
      Some(Alert(Danger, DropletIcon, "HIGH MOISTURE ALERT  \U{2014}  " + IntToText(humid) + "%", HumidDangerAdvice))
    else if humid > 60 then
      Some(Alert(Warn, DropletIcon, "ELEVATED HUMIDITY  \U{2014}  " + IntToText(humid) + "%", HumidWarnAdvice))
    else None
  }

  function Present(a: Option<Alert>): seq<Alert>
  {
    if a.Some? then [a.value] else []
  }

  /** The alerts of the three metric blocks, in block order. */
  function Active(aqi: int, temp: real, humid: int, formatTemp: real -> string): seq<Alert>
  {
    Present(AqiAlert(aqi)) + Present(TempAlert(temp, formatTemp)) + Present(HumidAlert(humid))
  }

  /** The list `build_alerts` returns: the active alerts, or the all-clear entry alone. */
  function Alerts(aqi: int, temp: real, humid: int, formatTemp: real -> string): seq<Alert>
  {
    var active := Active(aqi, temp, humid, formatTemp);
    if active == [] then [AllClear] else active
  }

  /** The position of an alert's block in `build_alerts`. */
  function Block(a: Alert): nat
  {
    if a.icon == AirIcon then 0
    else if a.icon == ThermometerIcon then 1
    else if a.icon == DropletIcon then 2
    else 3
  }

  /**
   * At most one alert per metric, in the order air quality, temperature,
   * humidity; none of them is of kind Safe, and there is none exactly when the
   * level is Safe.
   */
  lemma ActiveShape(aqi: int, temp: real, humid: int, formatTemp: real -> string)
    ensures var r := Active(aqi, temp, humid, formatTemp);
      && |r| <= 3
      && (forall i, j :: 0 <= i < j < |r| ==> Block(r[i]) < Block(r[j]) < 3)
      && (forall i :: 0 <= i < |r| ==> r[i].kind != Safe)
      && (forall i :: 0 <= i < |r| ==> (r[i].kind == Danger ==> AnyDanger(aqi, temp, humid)))
      && (r == [] <==> RiskLevel(aqi, temp, humid) == Safe)
  {
    var a, t, h := Present(AqiAlert(aqi)), Present(TempAlert(temp, formatTemp)), Present(HumidAlert(humid));
    var r := Active(aqi, temp, humid, formatTemp);
    forall i | 0 <= i < |r|
      ensures Block(r[i]) == (if i < |a| then 0 else if i < |a| + |t| then 1 else 2)
      ensures r[i].kind != Safe
      ensures r[i].kind == Danger ==> AnyDanger(aqi, temp, humid)
    {
      if i < |a| {
        assert r[i] == a[i];
      } else if i < |a| + |t| {
        assert r[i] == t[i - |a|];
      } else {
        assert r[i] == h[i - |a| - |t|];
      }
    }
  }

  /**
   * The list is never empty and holds at most one alert per metric, in the
   * order air quality, temperature, humidity; the all-clear entry appears, and
   * then alone, exactly when the level is Safe.
   */
  lemma AlertsShape(aqi: int, temp: real, humid: int, formatTemp: real -> string)
    ensures var r := Alerts(aqi, temp, humid, formatTemp);
      && 1 <= |r| <= 3
      && (forall i, j :: 0 <= i < j < |r| ==> Block(r[i]) < Block(r[j]))
      && (r == [AllClear] <==> RiskLevel(aqi, temp, humid) == Safe)
      && (forall i :: 0 <= i < |r| ==> (r[i].kind == Safe <==> r[i] == AllClear))
  {
    ActiveShape(aqi, temp, humid, formatTemp);
    var active := Active(aqi, temp, humid, formatTemp);
    if active != [] {
      assert active[0].kind != Safe;
    }
  }

  /**
   * The alert list and the banner agree: some alert is a danger exactly when the
   * level is Danger, and some alert is a warning or a danger exactly when the
   * level is not Safe.
   */
  lemma AlertsMatchLevel(aqi: int, temp: real, humid: int, formatTemp: real -> string)
    ensures var r := Alerts(aqi, temp, humid, formatTemp);
      && ((exists i :: 0 <= i < |r| && r[i].kind == Danger) <==> RiskLevel(aqi, temp, humid) == Danger)
      && ((exists i :: 0 <= i < |r| && r[i].kind != Safe) <==> RiskLevel(aqi, temp, humid) != Safe)
  {
    var r := Alerts(aqi, temp, humid, formatTemp);
    var a, t := Present(AqiAlert(aqi)), Present(TempAlert(temp, formatTemp));
    ActiveShape(aqi, temp, humid, formatTemp);
    if RiskLevel(aqi, temp, humid) != Safe {
      assert r == Active(aqi, temp, humid, formatTemp);
      assert r[0].kind != Safe;
    }
    if aqi > 150 {
      assert r[0] == a[0];
    } else if temp > 40.0 {
      assert r[|a|] == t[0];
    } else if humid > 80 {
      assert r[|r| - 1] == HumidAlert(humid).value;
    }
  }

  /** `build_alerts`: one block per metric appends its alert, then the all-clear entry if none did. */
  method BuildAlerts(aqi: int, temp: real, humid: int, formatTemp: real -> string) returns (alerts: seq<Alert>)
    ensures alerts == Alerts(aqi, temp, humid, formatTemp)
  {
    alerts := [];
    if aqi > 150 {
      alerts := alerts + [Alert(Danger, AirIcon, "UNSAFE AIR QUALITY  \U{2014}  AQI " + IntToText(aqi), AqiDangerAdvice)];
    } else if aqi > 100 {
      alerts := alerts + [Alert(Warn, AirIcon, "MODERATE AIR QUALITY  \U{2014}  AQI " + IntToText(aqi), AqiWarnAdvice)];
    }
    assert alerts == Present(AqiAlert(aqi));
    if temp > 40.0 {
      alerts := alerts + [Alert(Danger, ThermometerIcon, "EXTREME HEAT RISK  \U{2014}  " + formatTemp(temp) + "\U{B0}C", TempDangerAdvice)];
    } else if temp > 35.0 {
      alerts := alerts + [Alert(Warn, ThermometerIcon, "ELEVATED TEMPERATURE  \U{2014}  " + formatTemp(temp) + "\U{B0}C", TempWarnAdvice)];
    }
    assert alerts == Present(AqiAlert(aqi)) + Present(TempAlert(temp, formatTemp));
    if humid > 80 {
      alerts := alerts + [Alert(Danger, DropletIcon, "HIGH MOISTURE ALERT  \U{2014}  " + IntToText(humid) + "%", HumidDangerAdvice)];
    } else if humid > 60 {
      alerts := alerts + [Alert(Warn, DropletIcon, "ELEVATED HUMIDITY  \U{2014}  " + IntToText(humid) + "%", HumidWarnAdvice)];
    }
    assert alerts == Active(aqi, temp, humid, formatTemp);
    if alerts == [] {
      alerts := alerts + [AllClear];
    }
  }
}
