# Environmental monitoring pipeline — verified model of the risk logic and the tailing engine

The system watches a JSON-lines file of sensor readings (air quality index,
temperature in °C, relative humidity in %). A streaming engine,
`PathwaySimulator` in `monitoring_pipeline.py`, polls the input file, classifies
every new reading against fixed thresholds and appends an enriched record to an
output log. A dashboard, `dashboard.py`, reads the enriched records back and
shows a risk level, a banner, one badge per metric and a list of alerts, using
the same thresholds.

The project models:

- `wrappers.dfy`: `Option` and `Result`.
- `json.dfy`: the values `json.loads` produces and `dict.get`.
- `pytext.dfy`: the parts of Python's text handling the pipeline relies on:
  - `str.strip()` with Python's white-space set;
  - the string grammars of `int(str)` and `float(str)`, with digit groups, signs, fractions and exponents;
  - the `f"{n}"` rendering of an `int`.
- `classifier.dfy`: the three detectors and `compute_overall_status`.
- `transform.dfy`: `_transform_row`, which coerces the three fields with `int()` and `float()` as Python does, then applies defaults and classifies. It also models the nine-key dict that is written out.
- `tailing.dfy`: `seek`/`readlines`/`tell` on the input text, with lines ending at `\n`, `\r\n` or a lone `\r`, as Python's universal newlines cut them.
- `engine.dfy`:
  - the line loop of `run` as a specification function (`ProcessLines`);
  - one iteration of `run` (`PollSpec`) and successive iterations (`RunSpec`);
  - the class `PathwaySimulator`, with the offset and the output log as fields. Its `Poll` method is one iteration of `run`, written as a loop over the lines read and proved against `PollSpec`.
- `dashboard.py` logic in `dashboard.dfy`:
  - `get_risk_level`, `status_config` and the three badges;
  - `build_alerts`, as a method that appends to a list, proved equal to the declarative `Alerts`.

`json.loads` is a parameter `parse: string -> Option<Json>`, where `None` stands
for `json.JSONDecodeError`. The engine's row transform is a class constant set
to `TransformRow` by the constructor. The engine lemmas hold for any transform.

The model follows the code as written:

- A torn last line, one the producer has not finished writing, is returned by `readlines()`, and `tell()` then moves past it. If the torn part does not decode (the producer stopped before the object's closing brace), it is skipped and lost (`TornWriteIsLost`). If only the line break is missing, the record is written, and the break is read as a blank line at the next poll (`TornBeforeBreakKeepsRecord`).
- Only `json.JSONDecodeError` is caught. A value that `int()` or `float()` rejects makes `_transform_row` raise, and the exception ends `run` (`Crash`, `Crashed`).
- No counter of malformed lines exists. A skipped line only produces a print.
- `row_count` is a local variable of `run`, not a field. `Poll` takes it in and returns it.
- The thresholds are strict `>`. An AQI of 150 is MODERATE, not GOOD. A humidity of 80 is ELEVATED, so the overall status is CAUTION.
- The dashboard passes levels as the strings "safe", "warn" and "danger", and uses CSS class names derived from them. Here a level is the datatype `Level`:
  - `Name` gives the string;
  - `BannerCss`, `ColorCss` and `BadgeCss` give the class names (`status-…`, `banner-…-color`, `sub-…`);
  - an alert's `type` is its `kind`.

## Model

| member | source | states |
|---|---|---|
| PyText.StripLeftRemovesLeadingSpace | monitoring_pipeline.py:135 | the left strip removes exactly the longest all-white-space prefix: the result is a suffix, everything removed is white space, the result does not start with white space |
| PyText.StripRightRemovesTrailingSpace | monitoring_pipeline.py:135 | the right strip removes exactly the longest all-white-space suffix |
| PyText.StripEmptyIffBlank | monitoring_pipeline.py:135-137 | `line.strip()` is empty exactly when every character of the line is white space |
| PyText.Strip | monitoring_pipeline.py:135 | `str.strip()`; specified by StripLeftRemovesLeadingSpace, StripRightRemovesTrailingSpace, StripEmptyIffBlank and StripTrimmed |
| PyText.StripTrimmed | monitoring_pipeline.py:135 | a text with no white space at either end is left unchanged by `strip()` |
| PyText.StripIgnoresTrailingSpace | monitoring_pipeline.py:135 | one more white-space character at the end does not change `strip()` |
| PyText.NatToText | dashboard.py:496 | the decimal rendering of a natural number is a non-empty string of ASCII digits |
| PyText.NatToTextValue | dashboard.py:496 | the rendered digits form a digit part whose value is the number |
| PyText.IntTextRoundTrip | dashboard.py:496 | `int(f"{n}") == n` for every integer: the AQI shown in an alert title is the integer read back |
| PyText.ParseIntText | monitoring_pipeline.py:105 | `int(str)`: optional white space and sign around a digit part with single underscores; specified by IntTextRoundTrip and IntTextIsFloatText |
| PyText.ParseFloatText | monitoring_pipeline.py:106 | `float(str)`: sign, then an infinity/NaN word or a decimal with optional fraction and exponent; specified by DigitPartIsDecimal and IntTextIsFloatText |
| PyText.IntToText | dashboard.py:496 | `f"{n}"` for an int; specified by NatToText, NatToTextValue and IntTextRoundTrip |
| PyText.DigitPartIsDecimal | monitoring_pipeline.py:105-107 | a digit part is not an infinity/NaN word and `float()` reads it as the same number |
| PyText.IntTextIsFloatText | monitoring_pipeline.py:105-107 | every string `int()` accepts, `float()` accepts with the same value |
| JsonModel.Get | monitoring_pipeline.py:105-110 | `row.get(key, default)` is the member when the key is present, the default otherwise |
| Classifier.DetectAqiRisk | monitoring_pipeline.py:47-52 | red UNSAFE text iff aqi > 150, yellow MODERATE iff 100 < aqi <= 150, green GOOD iff aqi <= 100; the icon is red/green in exactly those ranges |
| Classifier.DetectTempRisk | monitoring_pipeline.py:54-59 | red HEAT RISK iff temp > 40, yellow WARM iff 35 < temp <= 40, green NORMAL iff temp <= 35 |
| Classifier.DetectHumidityRisk | monitoring_pipeline.py:61-66 | red HIGH MOISTURE iff humidity > 80, yellow ELEVATED iff 60 < humidity <= 80, green NORMAL iff humidity <= 60 |
| Classifier.OverallStatus | monitoring_pipeline.py:68-73 | UNSAFE iff some danger threshold is exceeded; CAUTION iff none is but some caution threshold is; SAFE iff no caution threshold is exceeded |
| Classifier.OverallStatusAgreesWithDetectors | monitoring_pipeline.py:47-73 | UNSAFE iff some detector text starts with the red icon, SAFE iff all three start with the green icon, CAUTION iff none is red and some is yellow |
| Classifier.ThresholdBoundaries | monitoring_pipeline.py:47-73 | every threshold is strict: aqi 150 is MODERATE and 151 UNSAFE, 100 GOOD and 101 MODERATE, temp 35.0 NORMAL and 40.0 WARM, humidity 80 ELEVATED and 81 HIGH, with the matching overall statuses |
| Transform.TruncateToInt | monitoring_pipeline.py:105 | `int()` of a float truncates toward zero: the result is within one of the value, on the zero side |
| Transform.PyInt | monitoring_pipeline.py:105 | `int(v)` fails exactly for None, lists, dicts and strings outside the integer grammar; keeps ints, maps bools to 0/1, truncates floats (exact reals here, so never infinite) toward zero, reads an accepted string as the integer it spells |
| Transform.PyFloat | monitoring_pipeline.py:106 | `float(v)` fails exactly for None, lists, dicts and strings that are not a finite decimal (type error for the first three); keeps floats, widens ints, maps bools to 0.0/1.0, reads an accepted string as the decimal it spells |
| Transform.IntCoercibleIsFloatCoercible | monitoring_pipeline.py:105-107 | whatever `int()` accepts `float()` accepts too, with the same value except for floats |
| Transform.TransformRow | monitoring_pipeline.py:103-118 | a non-object raises; otherwise the coercions run in the order aqi, temperature_c, humidity_pct and the first failure is the exception; on success the record's three numbers are the coerced values and the four statuses are the detectors' and combiner's on them, missing numbers are 0, missing timestamp is "", missing sensor_id is "UNKNOWN" |
| Transform.AsObject | monitoring_pipeline.py:108-118 | the written dict has exactly the nine output keys, with the record's values under them |
| Transform.WellTypedReadingTransforms | monitoring_pipeline.py:103-118 | a complete, well-typed reading is transformed without error and keeps its values |
| Transform.EmptyObjectDefaults | monitoring_pipeline.py:103-118 | an empty object yields timestamp "", sensor UNKNOWN, zero readings, the three green texts and SAFE |
| Transform.EndToEndScenario | monitoring_pipeline.py:103-118 | aqi 200, 42.0 °C, 90 % is UNSAFE with the three red texts |
| Tailing.FirstLineLength | monitoring_pipeline.py:131 | the first line of a non-empty text is non-empty and no longer than the text |
| Tailing.FirstLineEnds | monitoring_pipeline.py:131 | the first line ends at the first `\n`, `\r\n` or lone `\r`, or runs to the end of the text |
| Tailing.Lines | monitoring_pipeline.py:131 | `readlines()`; specified by LinesAreTerminated, LinesHaveNoInnerBreak, LinesConcat, LastLineTorn and LinesAppend |
| Tailing.LinesAreTerminated | monitoring_pipeline.py:131 | `readlines()` yields non-empty lines, every one but the last ending in a line break |
| Tailing.LinesHaveNoInnerBreak | monitoring_pipeline.py:131 | every line read, not only the first, is non-empty and holds no `\n` or `\r` before its terminator except the `\r` of a closing `\r\n`, and no line ending in `\r` is followed by one starting with `\n`: lines are cut at every `\n`, `\r\n` and lone `\r`, and a `\r\n` is never split |
| Tailing.LinesConcat | monitoring_pipeline.py:131 | the lines, raw terminators kept, put together are exactly the text read |
| Tailing.LastLineTorn | monitoring_pipeline.py:131-132 | the last line returned ends with the text's last character: an unterminated line is returned as it is |
| Tailing.LinesAppend | monitoring_pipeline.py:131 | splitting a text just after a `\n` and reading both parts gives the same lines as reading it whole |
| Tailing.UnterminatedIsOneLine | monitoring_pipeline.py:131 | a text without line breaks is read as a single line |
| Tailing.TerminatedIsOneLine | monitoring_pipeline.py:131 | a text whose only break is a final `\n` is read as a single line |
| Tailing.ReadFrom | monitoring_pipeline.py:129-132 | after the read the offset is the file length, never less than before; an offset past the end reads nothing and stays |
| Tailing.ReadFromReadsRest | monitoring_pipeline.py:129-132 | the lines read concatenate exactly to the file from the old offset |
| Engine.TransformRowClassifying | monitoring_pipeline.py:103-118 | every record `_transform_row` returns carries the statuses of its own readings |
| Engine.StepLine | monitoring_pipeline.py:135-153 | the body of the line loop: blank, malformed, one record, or the exception; specified by LineOutcomes |
| Engine.LineOutcomes | monitoring_pipeline.py:134-140 | a line is skipped as blank iff it is all white space, skipped as malformed iff `json.loads` rejects its stripped text, and reaches the transform iff `json.loads` accepts it |
| Engine.ProcessLines | monitoring_pipeline.py:134-153 | the `for line in new_lines` loop; specified by ProcessLinesCount, ProcessLinesAppend, FailureIsFinal, ProcessedRecordsClassified and MalformedLineIsolated, and implemented by PathwaySimulator.Poll |
| Engine.ProcessLinesCount | monitoring_pipeline.py:134-141 | with no exception, one record per decodable line is appended (`row_count` grows by that number); after an exception, fewer |
| Engine.ProcessLinesAppend | monitoring_pipeline.py:134-153 | lines are handled in input order: two runs of lines give the first run's records then the second's, unless the first raised |
| Engine.FailureIsFinal | monitoring_pipeline.py:138-152 | once a transform raised, later lines change nothing |
| Engine.ProcessLinesSnoc | monitoring_pipeline.py:134-153 | handling one more line appends its record, records its exception, or skips it |
| Engine.ProcessedRecordsClassified | monitoring_pipeline.py:134-144 | every record appended carries the statuses of its own readings |
| Engine.MalformedLineIsolated | monitoring_pipeline.py:134-153 | a malformed line between two good readings drops out; the two records appear in input order |
| Engine.PollSpec | monitoring_pipeline.py:123-153 | a missing input changes nothing; the offset never decreases and becomes the file length after a read |
| Engine.RunSpec | monitoring_pipeline.py:120-155 | successive iterations of `run` never decrease the offset |
| Engine.RunFailureIsFinal | monitoring_pipeline.py:138-152 | once an iteration raised, `run` has ended and later snapshots change nothing |
| Engine.RunSpecSnoc | monitoring_pipeline.py:123-155 | the next iteration appends its batch to the records so far, unless `run` already ended |
| Engine.AlignedPollsReadOnce | monitoring_pipeline.py:129-153 | on a growing input that each poll but the last sees ending on a complete line, the polls append exactly the records of one read of the final file, in order |
| Engine.WaitingChangesNothing | monitoring_pipeline.py:124-127 | polls that find no input file leave the offset where it was and append nothing |
| Engine.LeadingWaitsChangeNothing | monitoring_pipeline.py:120-155 | waiting polls before the input first appears leave every later poll's outcome as it would be without them |
| Engine.StartBeforeInputExists | monitoring_pipeline.py:120-155 | an engine started before the input exists, after its waiting polls, appends exactly the records of one read of the final file on line-aligned growth |
| Engine.ResumeAtLineBoundary | monitoring_pipeline.py:129-153 | resuming at a line boundary continues exactly as one read of the longer text |
| Engine.TornWriteIsLost | monitoring_pipeline.py:129-139 | when neither half decodes, a line split across two polls yields no record, whereas one poll of the finished line yields its record; both end at the same offset |
| Engine.TornBeforeBreakKeepsRecord | monitoring_pipeline.py:129-141 | a write torn just before its `\n` loses nothing: the first poll writes the complete object's record, the lone `\n` is skipped as blank at the next poll, and the outcome equals one poll of the finished line |
| Engine.PathwaySimulator.constructor | monitoring_pipeline.py:89-96 | the offset starts at 0 and the output log is empty |
| Engine.PathwaySimulator.Poll | monitoring_pipeline.py:123-153 | the new offset, the output (old records kept, the batch appended), `row_count` and the outcome are those of `PollSpec` |
| Dashboard.Name | dashboard.py:444-448 | the string of a level is non-empty |
| Dashboard.NamesDistinct | dashboard.py:444-448 | different levels have different strings |
| Dashboard.RiskLevel | dashboard.py:438-448 | danger iff some danger threshold is exceeded, warn iff none is but a caution threshold is, safe iff no caution threshold is exceeded |
| Dashboard.RiskLevelMirrorsOverallStatus | dashboard.py:438-448 | the dashboard level and `compute_overall_status` agree: danger/UNSAFE, warn/CAUTION, safe/SAFE |
| Dashboard.StatusConfig | dashboard.py:451-470 | each level string gets the banner styled after that level; every other string gets the LOADING fallback; the siren shows iff the string is "danger" |
| Dashboard.ReadingBanner | dashboard.py:451-470 | the banner of a reading's level is never LOADING, is styled `status-<level>`, and shows the siren iff some danger threshold is exceeded |
| Dashboard.AqiBadge | dashboard.py:473-476 | sub-danger iff aqi > 150, sub-warn iff 100 < aqi <= 150, sub-safe iff aqi <= 100 |
| Dashboard.TempBadge | dashboard.py:478-481 | sub-danger iff temp > 40, sub-warn iff 35 < temp <= 40, sub-safe iff temp <= 35 |
| Dashboard.HumidBadge | dashboard.py:483-486 | sub-danger iff humid > 80, sub-warn iff 60 < humid <= 80, sub-safe iff humid <= 60 |
| Dashboard.BadgesAgreeWithDetectors | dashboard.py:473-486 | each badge agrees with the pipeline's detector on the same reading: the detector's icon matches the badge level and its text opens with the badge's word |
| Dashboard.LevelFromBadges | dashboard.py:473-486 | the overall level is danger iff some badge is, safe iff every badge is |
| Dashboard.AqiAlert | dashboard.py:494-501 | an air quality alert exists iff aqi > 100, has the air icon and the AQI badge's level, and its title ends with the AQI |
| Dashboard.TempAlert | dashboard.py:504-511 | a temperature alert exists iff temp > 35, has the thermometer icon and the temperature badge's level, and its title ends with the formatted temperature and °C |
| Dashboard.HumidAlert | dashboard.py:514-521 | a humidity alert exists iff humid > 60, has the droplet icon and the humidity badge's level, and its title ends with the humidity and % |
| Dashboard.Active | dashboard.py:493-521 | the alerts of the three metric blocks in block order; specified by ActiveShape |
| Dashboard.Alerts | dashboard.py:489-529 | the list `build_alerts` returns; specified by AlertsShape and AlertsMatchLevel, and built by BuildAlerts |
| Dashboard.ActiveShape | dashboard.py:493-521 | at most one alert per metric, in the order AQI, temperature, humidity, none of kind safe, and none at all iff the level is safe |
| Dashboard.AlertsShape | dashboard.py:489-529 | the list is never empty and has at most 3 entries, in block order; it is the all-clear entry alone iff the level is safe; an entry is of kind safe iff it is the all-clear entry |
| Dashboard.AlertsMatchLevel | dashboard.py:494-527 | some alert is danger iff the level is danger; some alert is warn or danger iff the level is not safe |
| Dashboard.BuildAlerts | dashboard.py:489-529 | the list built by the appends is `Alerts`: the active alerts in block order, or the all-clear entry alone |

## Left out

- File-system calls, sleeping and console printing are not modelled. These are `os.path.exists`, `os.remove`, `open`, `time.sleep` and the progress lines (monitoring_pipeline.py:97-101, 124-127, 146-153). The input file is a snapshot `Option<string>` handed to each poll.
- `json.loads` is the parameter `parse`. `json.dumps` is represented by `AsObject`, without a text encoding.
- Offsets count characters of the decoded text. `tell()` on a text file returns an opaque cookie, which here is taken to be the character position.
- The `while True` loop of `run` is not a method. Each iteration is one `Poll` call. `RunSpec` specifies a finite series of iterations.
- `row_count` is threaded through `Poll` as a parameter and a result, because the source keeps it in a local variable.
- Floating point is not modelled. Temperatures are exact reals, and JSON numbers with a fraction or an exponent are exact reals.
- The `:.1f` formatting of the temperature in alert titles is the parameter `formatTemp`.
- PyFloat: `float("inf")` and `float("nan")` give the error `NonFiniteValue`, because no real represents them. Python accepts them, and the detectors would then classify them. So a `temperature_c` string "inf" or "nan" makes the model's `TransformRow` fail, `Poll` return `Crashed` and `run` end. Python instead writes the record (HEAT RISK for inf) and goes on with the next line.
- JSON's non-standard `NaN` and `Infinity` tokens are not representable.
- PyText.IsDigit: only ASCII digits are accepted. `int()` and `float()` also accept other Unicode decimal digits.
- The following are not part of this model, because they are data generation, UI rendering and pandas behaviour:
  - `data_stream.py`;
  - the dashboard's `load_data`;
  - the `render_*` functions;
  - `main`.
- The commented-out block that would use the Pathway library is not part of this model.
- A failure to write the output file is not modelled.
- PollSpec, ReadFrom: the read step has no error path; a snapshot is either missing or a fully decoded text. Two read errors are not modelled, and both happen outside the `try` of monitoring_pipeline.py:138-152, so `run` ends and `_file_offset` keeps its old value because line 132 is never reached:
  - `readlines()` in strict UTF-8 raises UnicodeDecodeError on bytes that are not valid UTF-8. This includes a multi-byte character torn at the end of a poll.
  - `open` raises if the file is removed between the existence check at line 124 and line 129.
- Tailing.Lines keeps each line's raw terminator (`\r\n` or `\r`), where Python's universal newlines return `\n`. The two agree after `strip()`, which is all the engine uses, and the raw lengths are what the offset counts. LinesConcat and LastLineTorn are stated about the raw lines.
- `json.loads` exceptions other than `json.JSONDecodeError` are not modelled. Examples are RecursionError on deeply nested input, and ValueError for an integer literal of more than 4300 digits. They are not caught, so they end `run`. The parameter `parse` can only accept a line or reject it as malformed.
- Transform.IntCoercibleIsFloatCoercible: `float()` of an int beyond the float range raises OverflowError, for example a `temperature_c` of 10**400. The model has no float range, so PyFloat accepts it and the lemma claims it for every int.
- Transform.PyInt: `json.loads` turns a JSON number beyond the float range, such as `"aqi": 1e400`, into an infinite float, and `int()` of it raises OverflowError at monitoring_pipeline.py:105 (or :107 for `humidity_pct`). That is outside the `try` of lines 138-152, so `run` ends. The model's `JFloat` is an exact real, so PyInt truncates it and the record is written.
- PyText.ParseIntText: Python refuses to convert a string of more than 4300 digits and raises ValueError. The model accepts any length, so IntTextRoundTrip is stated for every integer.
