# ml-stunting, modelled in Dafny

ml-stunting screens children under five for stunting. The system has three parts:

- **Device.** An IoT device measures height with an ultrasonic sensor and
  weight from a BLE scale. It posts each reading once per measurement cycle
  to a FastAPI server. Before every cycle it posts a reset.
- **Server.** The server keeps the last reading per device. It pushes that
  reading to the WebSocket clients watching the device. On `/predict` it
  turns a child's birth date, sex, weight and height into:
  - an age;
  - three WHO z-scores: BB/U (weight-for-age), TB/U (height-for-age) and
    BB/TB (weight-for-height);
  - three classifier labels;
  - a guidance text composed from fixed tables.
- **Scripts.** Two batch scripts compute and band z-scores. A simulator
  builds the device's endpoint URLs.

This project models the deterministic logic around two opaque oracles:

- the pygrowup z-score lookups;
- the trained classifiers.

Each oracle is a value of a function type that may fail: `GrowthOracle.Calculator` for the lookups and `Prediction.Models` for the classifiers. Every proof holds whatever these functions do.

| module | file | models |
|---|---|---|
| `Wrappers` | wrappers.dfy | `Option` and `Result` |
| `PyStr` | pystr.dfy | Python `str` operations: `isspace`, ASCII `lower`/`upper`, `strip`, `rstrip(c)`, `startswith`, `int()` of digits, `str()` of an int |
| `DigitSearch` | digit_search.dfy | the regex searches `(\d+)\s*keyword` and `(\d+) Keyword`: the leftmost match and its captured number |
| `AgeParser` | age_parser.dfy | `lib/prediction/parser.py` |
| `AgeParserExamples` | age_parser_examples.dfy | two worked inputs of the free-text age scanner |
| `GrowthOracle` | growth_oracle.dfy | pygrowup's `wfa`, `lhfa` and `wfh` as partial functions |
| `ZScore` | zscore.dfy | `lib/prediction/zscore.py` |
| `ZScoreInterpretation` | zscore_interpretation.dfy | `test/zscore_test.py` |
| `ZScoreRobust` | zscore_robust.dfy | `test/zscore_replace.py` |
| `Prediction` | prediction.dfy | `lib/prediction/prediction.py` |
| `WsManager` | ws_manager.dfy | `lib/main/ws_manager.py` |
| `Api` | api.dfy | the registry and `/predict` handlers of `main.py` |
| `IotSimulator` | iot_simulator.dfy | `build_url` and the paths of `simulasi_iot.py` |
| `Firmware` | firmware.dfy | the `loop()` state machine of `IOT.cpp` |

The modules take three forms:

- **Pure code:** datatypes, functions and lemmas. This covers the parser,
  the guidance composer, the z-score policies, the classifiers and the URL
  builder.
- **Code that mutates state:** classes with `modifies` frames, each method
  proved against a function on values:
  - `WsManager.ConnectionManager`;
  - `Api.Server` (the `data_devices` dict);
  - `Firmware.Device` (the firmware's globals).
- **Scripts that build a list or dict field by field:** methods whose
  result is tied to a specification predicate. These are the two validators
  and aggregators of `test/zscore_replace.py`.

Where the specification of the system and its code differ, the model follows the code:

- `parser_usia_from_string` never fails. Text without any token gives 0/0/0.
- The TB/U interpretation has no "tall" band. Every z-score from -2 upwards is Normal.
- The guidance composer is declared without `self`. The `/predict` handler calls it as a method, which raises a `TypeError` (see Findings).

## Model

| member | source | states |
|---|---|---|
| AgeParser.UsiaBulan | lib/prediction/parser.py:3-5 | a count of months splits back into whole years and the remaining months (months / 12 and months % 12) whenever bulan < 12 |
| AgeParser.UsiaTahunOfElapsedDays | lib/prediction/parser.py:7-9 | for a decomposed day count d, tahun + bulan/12 + hari/365 equals d/365 + bulan/876 exactly: a 30-day month is counted as 1/12 of a year |
| AgeParser.UsiaBulanOfTwelveMonths | lib/prediction/parser.py:3-5 | for the decomposition of any day count, bulan = 12 gives the same month total as one more year and no months, and the total never exceeds 12 * (whole years + 1) |
| AgeParser.UsiaTahun | lib/prediction/parser.py:7-9 | the age in years is (4380 * tahun + 365 * bulan + 12 * hari) / 4380 exactly; with bulan < 12 and hari < 30 it lies in [tahun, tahun + 1) |
| AgeParser.ParseGender | lib/prediction/parser.py:11-18 | "L" gives M and "P" gives F, each if and only if; every other string (lower case included) fails with the invalid-sex message |
| AgeParser.ParseUsiaRoundTrip | lib/prediction/parser.py:20-40 | "<t> tahun <b> bulan <h> hari" parses back to t years, b months and h days, for all naturals t, b and h |
| AgeParser.ParseUsiaIgnoresCase | lib/prediction/parser.py:24-28 | lower-casing or upper-casing the text does not change the parsed age |
| AgeParser.ParseUsiaNoTokens | lib/prediction/parser.py:29-31 | with no keyword match anywhere, the result is 0/0/0, not an error |
| AgeParserExamples.FullExample | lib/prediction/parser.py:20-37 | "2 tahun 3 bulan 10 hari" parses as 2 years, 3 months, 10 days |
| AgeParserExamples.MonthsOnlyExample | lib/prediction/parser.py:29-31 | "5 bulan" parses as 0/5/0: missing tokens default to 0 |
| DigitSearch.FirstMatch | lib/prediction/parser.py:26-28 | the position found is a match and no earlier position matches; None means no position matches at all |
| DigitSearch.FirstMatchStartsRun | lib/prediction/parser.py:26-28 | the leftmost match starts a whole digit run, so the captured group is the whole number ("12 tahun" gives 12) |
| DigitSearch.SearchValueOfNumber | lib/prediction/parser.py:26-31 | a text that starts with the decimal form of n, then a run of spaces (only where the pattern allows `\s*`), then the keyword, whatever follows, yields n |
| AgeParser.Decompose | lib/prediction/parser.py:52-54 | 365*tahun + 30*bulan + hari == d, with 0 <= hari < 30 and 0 <= bulan <= 12; bulan == 12 if and only if d mod 365 >= 360; tahun >= 0 if and only if d >= 0 |
| AgeParser.DecomposeUnique | lib/prediction/parser.py:52-54 | any breakdown meeting the round-trip and bounds is the decomposition, so tahun = d div 365, bulan = (d mod 365) div 30 and hari = (d mod 365) mod 30 |
| AgeParser.TwelveMonthsReachable | lib/prediction/parser.py:53 | 360 days give 0 years, 12 months, 0 days and 364 days give 0/12/4 |
| AgeParser.ParseTanggalLahir | lib/prediction/parser.py:43-63 | an unparseable date fails with "Format tanggal lahir tidak valid", if and only if; otherwise the breakdown satisfies the round-trip and bounds for today - birthday |
| GrowthOracle.LookupsFor | lib/prediction/zscore.py:33-41 | wfa gets the weight, lhfa the height, and wfh the weight with the height as its extra argument, all with the same age and sex |
| ZScore.CalculateZscore | lib/prediction/zscore.py:16-57 | calculated if and only if all three lookups succeed, and then bbu/tbu/bbtb are the wfa/lhfa/wfh values; otherwise all three are None; no failure reaches the caller |
| ZScore.NoPartialResult | lib/prediction/zscore.py:44-57 | each z-field is set exactly when calculated is true: no partial result is kept |
| ZScore.SexNotCanonicalised | lib/prediction/zscore.py:33-41 | a calculator whose wfa fails on "L" but which succeeds on every lookup for "M" leaves "L" uncalculated and "M" calculated: the code is not mapped to pygrowup's |
| ZScore.SexNotCanonicalisedWitness | lib/prediction/zscore.py:33-41 | with a table that only knows "M" and "F", "L" and "M" give different results |
| ZScoreInterpretation.CalculateZscore | test/zscore_test.py:12-46 | all three values when every lookup succeeds, all three None otherwise |
| ZScoreInterpretation.WrapperAgreesWithCalculator | test/zscore_test.py:12-46 | the script's wrapper and the calculator class give the same fields, and calculated is exactly "BB/U is set" |
| ZScoreInterpretation.ClassifyBbu | test/zscore_test.py:95-102 | each band as an if-and-only-if interval: z < -3 Sangat Kurang, -3 <= z < -2 Kurang, -2 <= z <= 2 Normal, z > 2 Risiko Lebih |
| ZScoreInterpretation.ClassifyTbu | test/zscore_test.py:106-111 | z < -3 Sangat Pendek, -3 <= z < -2 Pendek, z >= -2 Normal, each if and only if; there is no tall band |
| ZScoreInterpretation.ClassifyBbtb | test/zscore_test.py:115-122 | z < -3 Sangat Kurus, -3 <= z < -2 Kurus, -2 <= z <= 2 Normal, z > 2 Gemuk, each if and only if |
| ZScoreInterpretation.Boundaries | test/zscore_test.py:95-122 | the comparisons are strict: -2 and 2 are Normal and -3 falls in the second band |
| ZScoreInterpretation.ClassifiersMonotone | test/zscore_test.py:95-122 | a larger z-score never falls in a lower band, for all three indicators |
| ZScoreInterpretation.LabelsDistinct | test/zscore_test.py:95-122 | within each indicator, different bands have different labels |
| ZScoreInterpretation.Interpret | test/zscore_test.py:81-123 | an interpretation exists if and only if all lookups succeed, and it is the three classifications of the three z-scores |
| ZScoreRobust.ParseUsiaToMonths | test/zscore_replace.py:11-32 | a missing cell gives a missing result, if and only if; otherwise max(1, tahun*12 + bulan) from the capitalised, literal-space patterns, so always >= 1; the days are ignored |
| ZScoreRobust.ParseUsiaCapitalised | test/zscore_replace.py:18-29 | "2 Tahun" gives 24 months |
| ZScoreRobust.ParseUsiaIsCaseSensitive | test/zscore_replace.py:18-29 | "2 tahun" finds no year and is floored to 1 month |
| ZScoreRobust.Problem.Message | test/zscore_replace.py:40-52 | the error text of each entry kind, with NaN shown as "nan"; its first characters tell the kind back (KindOf gives the entry's rank) |
| ZScoreRobust.MessagesTellKindsApart | test/zscore_replace.py:40-125 | entries of different kinds never have the same text, whatever their values or exception texts |
| ZScoreRobust.CheckEntry | test/zscore_replace.py:39-52 | each check adds at most one entry, with that check's rank, and only when the offending value fails that check |
| ZScoreRobust.ExtendReport | test/zscore_replace.py:36-54 | running the next check after the first k extends a valid report for k checks to one for k + 1 |
| ZScoreRobust.ReportEmptyIffValid | test/zscore_replace.py:36-54 | a report is empty if and only if 1 <= age <= 60, 0 < weight <= 50, 45 <= height <= 130 and sex is in {L, P, M, F}; every entry names one of the four values |
| ZScoreRobust.ValidateInputData | test/zscore_replace.py:34-54 | the list holds one entry per failing check, in the order age, weight, height, sex; it is empty if and only if the input is valid |
| ZScoreRobust.FirstIsLeast | test/zscore_replace.py:36-54 | the head of an ordered report has the least rank, and is the only entry with that rank |
| ZScoreRobust.ReportsUnique | test/zscore_replace.py:34-54 | two lists that both report the same input are equal, so the validator's list is determined by its input |
| ZScoreRobust.PygrowupSex | test/zscore_replace.py:89 | "M" if and only if the upper-cased code is L or M; "F" otherwise |
| ZScoreRobust.PygrowupSexOfValidCodes | test/zscore_replace.py:89 | L and M map to M; P and F map to F |
| ZScoreRobust.LookupEntry | test/zscore_replace.py:96-112 | a lookup adds nothing if and only if it succeeds; a failed one adds exactly its indicator with the exception text |
| ZScoreRobust.LookupErrors | test/zscore_replace.py:96-112 | the errors are ordered BB/U, TB/U, BB/TB, hold one entry per failed lookup carrying its text, and nothing else |
| ZScoreRobust.RunLookups | test/zscore_replace.py:96-120 | each z-field holds its lookup's value exactly when that lookup succeeded; status is success if and only if all are set, partial_success if and only if some but not all are, failed if and only if none are |
| ZScoreRobust.CalculateZscoreRobust | test/zscore_replace.py:56-128 | invalid input gives validation_failed with no z-fields and the validator's report; a failing calculator construction gives fatal_error with the exception text; otherwise the z-fields follow the lookups, with the errors and the status of RunLookups; the initial status never survives |
| ZScoreRobust.OneErrorPerFailedLookup | test/zscore_replace.py:96-112 | the number of errors equals the number of failed lookups |
| Prediction.BbuTableSize | lib/prediction/prediction.py:103-108 | the BB/U table has exactly the 4 keys risiko lebih, normal, kurang, sangat kurang |
| Prediction.TbuTableSize | lib/prediction/prediction.py:109-114 | the TB/U table has exactly the 4 keys tinggi, normal, pendek, sangat pendek |
| Prediction.BbtbTableSize | lib/prediction/prediction.py:115-122 | the BB/TB table has exactly the 6 keys from obesitas to gizi buruk |
| Prediction.Key | lib/prediction/prediction.py:125-127 | the lookup key is no longer than the label, has no surrounding whitespace and no upper-case letter |
| Prediction.KeyNormalises | lib/prediction/prediction.py:125-127 | surrounding whitespace and letter case do not change a label's lookup key |
| Prediction.ComposeNormalises | lib/prediction/prediction.py:125-136 | labels that differ only in case and surrounding whitespace get the same guidance, for any tables |
| Prediction.Entry | lib/prediction/prediction.py:131-136 | a table contributes one prefixed entry if its key is present and nothing otherwise: a missing label is skipped silently |
| Prediction.RecommendationsOrder | lib/prediction/prediction.py:130-136 | one entry per found key; BB/U comes first, TB/U next and BB/TB last, each with its prefix |
| Prediction.JoinSpace | lib/prediction/prediction.py:140 | joining nothing gives ""; one item gives itself; the result starts with the first item |
| Prediction.JoinSpaceSmall | lib/prediction/prediction.py:140 | two or three entries are joined with exactly one space between neighbours |
| Prediction.ComposeKeys | lib/prediction/prediction.py:130-140 | exactly "Tidak ada rekomendasi penanganan." if and only if no key is found; otherwise the found entries joined by spaces |
| Prediction.ComposeSingle | lib/prediction/prediction.py:130-140 | a single found key gives just its own prefixed entry |
| Prediction.ComposePairs | lib/prediction/prediction.py:130-140 | two found keys give their entries in table order, one space apart; the third label is skipped |
| Prediction.ComposeAll | lib/prediction/prediction.py:130-140 | all three found give the BB/U, TB/U and BB/TB entries, one space apart |
| Prediction.Compose | lib/prediction/prediction.py:97-140 | for any tables: the fallback text if and only if none of the three keys is found; otherwise the found entries joined by spaces |
| Prediction.PenanganaGejalan | lib/prediction/prediction.py:97-140 | the same over the server's fixed tables |
| Prediction.GuidanceExample | lib/prediction/prediction.py:103-140 | with the fixed tables, normal/pendek/"tinggi" give the BB/U and TB/U guidance; the BB/TB label is not in its table and is skipped |
| Prediction.CheckInput | lib/prediction/prediction.py:66-70 | a sex code other than L or P is rejected first; otherwise an age outside the closed interval [1, 5] is rejected; otherwise the input passes (each if and only if) |
| Prediction.AgeBoundsInclusive | lib/prediction/prediction.py:69-70 | for either sex code L or P, 1.0 and 5.0 pass; 0.99 and 5.01 are rejected |
| Prediction.FeatureVector | lib/prediction/prediction.py:74-77 | the row is gender, bb_lahir, tb_lahir, usia, berat, tinggi, zs_bbu, zs_tbu, zs_bbtb, in that order |
| Prediction.Predict | lib/prediction/prediction.py:61-95 | a validation failure is the result; success if and only if validation and every classifier step succeed; each indicator's label is its own model's prediction decoded by its own encoder |
| Api.Server.ResetData | main.py:66-78 | a present device is removed with 200 and every other entry kept; an absent one changes nothing and gives 404 |
| Api.Server.TriggerIot | main.py:81-96 | a present device has only `triggered` set to true, with 200; an absent one changes nothing and gives 404 |
| Api.Server.ReceiveFromDevice | main.py:128-153 | the device's entry is overwritten with tb, bb, "updated", the time and triggered false; other entries are kept; it always answers 200; the broadcast runs only when some socket is connected, and then it has BroadcastToDevice's effect |
| Api.Server.GetDeviceData | main.py:281-292 | succeeds if and only if the device has data and is in `device_register`, with its data and socket count; otherwise 404 |
| Api.Server.GetAllDevices | main.py:273-279 | the whole registry, and total_devices equals its size |
| Api.Server.GetWebsocketStatus | main.py:254-271 | total_connections is the sum of the per-device list lengths, which is the number of registered sockets when the manager's index holds; the status is active if and only if the total is positive; one entry per device with data |
| Api.PredictionSteps | main.py:195-225 | a bad date, then a bad sex code, then uncalculated z-scores fail with their texts in that order; otherwise the result is the classifier's on the age and z-scores |
| Api.PredictStuntingAsWritten | main.py:195-240 | as written, every request fails with 500: a failing step with its text, and a request where every step succeeds with the TypeError text of the guidance call |
| Api.PredictStunting | main.py:195-240 | with the guidance call corrected: success if and only if every step succeeds, with the composed guidance as the message; every failure is a 500 "Prediction error: " plus the exception text |
| Api.PredictErrorsAre500 | main.py:208-240 | every failure is a 500; missing z-scores give 500 "Prediction error: 400: Error calculating Z-scores", not a 400 |
| Api.AsWrittenFailsWhereCorrectedSucceeds | main.py:228-232 | the corrected handler succeeds exactly where the written one fails with the TypeError; every other request gets the same answer from both |
| WsManager.Keep | lib/main/ws_manager.py:48-62 | the sockets kept are exactly those in the list and in the alive set, in list order, without duplicates if the list had none |
| WsManager.SendEach | lib/main/ws_manager.py:48-56 | the sockets the message reaches are the connected, non-failing ones in list order; the others are exactly the disconnected list |
| WsManager.Without | lib/main/ws_manager.py:26 | `list.remove`: one occurrence fewer when present, the list unchanged otherwise; on a list without duplicates, exactly the socket is gone |
| WsManager.DetachActive | lib/main/ws_manager.py:24-28 | only the socket's own device list changes, losing the socket; a falsy or unknown device id leaves the lists as they are; no key is added |
| WsManager.Replace | lib/main/ws_manager.py:24-28 | the device's list becomes the new one; the key is deleted when that list is empty; other devices are untouched |
| WsManager.AttachActive | lib/main/ws_manager.py:16-19 | the socket is appended to the end of its device's list, created if needed; other lists are unchanged |
| WsManager.AttachKeepsIndexed | lib/main/ws_manager.py:16-20 | connecting a fresh socket under a non-empty id keeps the two-way index: no empty list, no duplicate, every mapped socket listed and every listed socket mapped |
| WsManager.DetachKeepsIndexed | lib/main/ws_manager.py:23-33 | disconnecting a socket keeps the index |
| WsManager.DetachUnknown | lib/main/ws_manager.py:23-33 | disconnecting an unknown socket changes nothing |
| WsManager.BroadcastKeepsIndexed | lib/main/ws_manager.py:45-62 | the cleanup after a broadcast keeps the index |
| WsManager.TotalConnectionsCountsSockets | lib/main/ws_manager.py:13-33 | under the index, the sum of the list lengths is the number of registered sockets, and it is positive if and only if some socket is registered |
| WsManager.ConnectionManager.Connect | lib/main/ws_manager.py:13-21 | appends to the device's list, creating it, and registers the socket's device; it keeps the index for a fresh socket and a non-empty id |
| WsManager.ConnectionManager.Disconnect | lib/main/ws_manager.py:23-33 | removes the socket from its device's list, deleting an emptied list, and forgets the socket; it reports the `list.remove` error (nothing changed), which cannot happen under the index |
| WsManager.ConnectionManager.SendPersonalMessage | lib/main/ws_manager.py:35-43 | sent if and only if connected and the send succeeds; a connected socket whose send fails is disconnected; otherwise nothing changes |
| WsManager.ConnectionManager.BroadcastToDevice | lib/main/ws_manager.py:45-62 | the message reaches the connected, non-failing sockets of the device in list order; the device keeps exactly those; every other socket is unregistered; an unknown device changes nothing; the index is kept |
| IotSimulator.ResetPath | simulasi_iot.py:24 | the reset path is "/reset/" followed by the device id |
| IotSimulator.Base | simulasi_iot.py:30-33 | a host with a scheme loses all trailing '/' and never ends in one; any other host becomes "http://" + host + ":" + port |
| IotSimulator.NormPath | simulasi_iot.py:34-35 | the path always starts with '/'; it is unchanged if it had one and "/" + path otherwise |
| IotSimulator.NormPathIdempotent | simulasi_iot.py:34-35 | normalising twice is normalising once |
| IotSimulator.BuildUrl | simulasi_iot.py:28-36 | the URL is the base, one '/', then the path without the leading '/' it may have |
| IotSimulator.BuildUrlSplits | simulasi_iot.py:28-36 | the URL is the base, then one '/', then the path without its own leading '/' |
| IotSimulator.PortIgnoredWithScheme | simulasi_iot.py:30-31 | with a scheme the port does not affect the URL |
| IotSimulator.TrailingSlashesIgnored | simulasi_iot.py:30-31 | with a scheme an extra trailing '/' on the host does not affect the URL |
| IotSimulator.LeadingSlashOptional | simulasi_iot.py:34-35 | a leading '/' on the path does not affect the URL |
| IotSimulator.BuildUrlExample | simulasi_iot.py:28-36 | "localhost", 5000, "recive" give "http://localhost:5000/recive" |
| IotSimulator.ResetUrlShape | simulasi_iot.py:57-62 | the reset URL is the base followed by "/reset/" and the id |
| Firmware.ClampHeight | IOT.cpp:267-270 | 150 - distance clamped into 0..150: exact inside the range, 150 below it, 0 above it |
| Firmware.ClampHeightMonotone | IOT.cpp:267-270 | a larger distance never gives a larger height |
| Firmware.BitOrDisjoint | IOT.cpp:312-314 | or-ing a number shifted left by k bits with one below 2^k equals their sum |
| Firmware.Raw | IOT.cpp:312-314 | shifting b1 left by 8 bits and or-ing in b2 equals b1*256 + b2, at most 65535 |
| Firmware.DecodeWeight | IOT.cpp:305-314 | a raw reading exists if and only if the advertisement is the scale's MAC with at least 4 data bytes, and it is byte 2 * 256 + byte 3 |
| Firmware.WeightParts | IOT.cpp:316-317 | whole kilograms and hundredths satisfy 100*whole + hundredths == raw, with hundredths < 100 |
| Firmware.Weight | IOT.cpp:316-318 | the weight is raw / 100 kg, and positive if and only if raw is |
| Firmware.WeightInjective | IOT.cpp:316-323 | different raw readings give different weights |
| Firmware.HeightStep | IOT.cpp:259-300 | the reading is stored; the previous value and its time change only when the reading differs; the height locks once it has been stable for 4000 ms and is positive; nothing else changes |
| Firmware.WeightStep | IOT.cpp:303-351 | without a scale reading the weight fields are kept; otherwise the same rule as for height; the weight locks once stable for 4000 ms and positive |
| Firmware.FinalStep | IOT.cpp:354-436 | posts the locked weight and height if and only if not yet sent, the reset succeeded and WiFi is up; then clears both locks and `dataSent`, sets both previous values to -1, and `dataReset` becomes the outcome of the next reset |
| Firmware.Next | IOT.cpp:255-437 | one `loop()` call posts if and only if both values are locked, nothing was sent yet, the reset succeeded and WiFi is up, and then the locked values; the height is kept once locked; while measuring the reset flag, `dataSent` and WiFi are kept |
| Firmware.InitialValid | IOT.cpp:202-253 | the state after `setup()` satisfies the invariant and starts unlocked |
| Firmware.NextKeepsValid | IOT.cpp:255-437 | every `loop()` call keeps the invariant: height in range, weight locked only after height, locks only on positive values, dataReset only with WiFi, dataSent false between calls |
| Firmware.HeightLockRule | IOT.cpp:272-289 | an unlocked height locks if and only if the new reading equals the previous one, 4000 ms have passed since its last change, and it is positive |
| Firmware.WeightLockRule | IOT.cpp:320-340 | with height locked, the weight locks if and only if there is no new differing reading, 4000 ms have passed since its last change, and it is positive |
| Firmware.PreviousChangesOnlyOnNewReading | IOT.cpp:272-323 | a previous value and its timestamp change only on a reading that differs from it, and then to that reading and the current time |
| Firmware.WeightWaitsForHeight | IOT.cpp:259-303 | while the height is unlocked, no weight field changes |
| Firmware.PostGate | IOT.cpp:354-378 | data is posted if and only if both values are locked and the cycle's reset succeeded, and it is the locked weight and height |
| Firmware.CycleReset | IOT.cpp:418-435 | the end of a cycle clears both locks and `dataSent`, sets the previous values to -1, and `dataReset` is set if and only if WiFi is up and the next reset succeeds |
| Firmware.ResetFlagKeptWhileMeasuring | IOT.cpp:259-351 | while measuring, `dataReset` is kept and nothing is posted |
| Firmware.PostOncePerCycle | IOT.cpp:354-436 | after a post, the next two `loop()` calls post nothing |
| Firmware.PathsMatchSimulator | IOT.cpp:98-170 | the device's reset and data paths are the ones the simulator builds for the same device id |
| Firmware.Device.Setup | IOT.cpp:202-253 | the globals start at their initial values, WiFi up as connected, and the reset flag set if and only if connected and the start-up reset answered 200; the invariant holds |
| Firmware.Device.ResetDeviceData | IOT.cpp:101-142 | without WiFi nothing is posted and the flag is kept; otherwise the flag records whether the post answered 200 |
| Firmware.Device.SendDataToServer | IOT.cpp:145-200 | posts the current weight and height if and only if WiFi is up; succeeds if and only if WiFi is up and the post answers 200 |
| Firmware.Device.MeasureHeight | IOT.cpp:259-300 | the new globals are HeightStep of the old ones |
| Firmware.Device.MeasureWeight | IOT.cpp:303-351 | the new globals are WeightStep of the old ones |
| Firmware.Device.Finish | IOT.cpp:354-436 | the new globals and the post are FinalStep's |
| Firmware.Device.Step | IOT.cpp:255-437 | one `loop()` call: the new globals and the post are those of Next |

## Left out

- The pygrowup WHO growth-curve mathematics and the joblib/XGBoost classifiers and encoders. They are foreign libraries, so the model treats them as abstract partial functions. Model loading and its `sys.exit` are process control.
- Floating point. Weights, heights, z-scores and the age in years (`AgeParser.UsiaTahun`, whose float result is an exact `real` here) are Dafny `real`. `round(..., 2)` in the robust script and the simulator is not modelled, nor is the float conversion of the ultrasonic echo: the distance in centimetres is an input.
- The regex engine and Unicode. Only the patterns used are modelled, over ASCII case mapping; `\d` is taken as ASCII digits.
- AgeParser.ParseUsiaRoundTrip, DigitSearch.SearchValueOfNumber, ZScoreRobust.ParseUsiaToMonths: the limit on the digits `int()` converts is not modelled. Python 3.11 and later, and the 3.8.14, 3.9.14 and 3.10.7 releases, raise `ValueError` for a decimal string of more than 4300 digits by default. In `parser_usia_from_string` that error becomes "Format usia tidak valid" (lib/prediction/parser.py:38-40); in the robust script it becomes NaN (test/zscore_replace.py:30-32). The model converts a digit run of any length, so those two error paths are not modelled. The limit depends on the interpreter version and its configuration (`sys.set_int_max_str_digits`, `PYTHONINTMAXSTRDIGITS`).
- `datetime.strptime` and `datetime.now`. The birth date's day number (or its absence, for a malformed date) and today's day number are inputs.
- FastAPI routing, JSON, CORS, uvicorn, the health and model-info endpoints, and the `/ws/data` endpoint loop with its `asyncio.sleep`. These are transport.
- Event-loop timestamps. `last_updated` is an input, and the broadcast payload's content is not modelled, only who receives it.
- `broadcast_all` (lib/main/ws_manager.py:64-67). It iterates over `active_connections` while awaiting `broadcast_to_device`, whose cleanup deletes a device's key once all its sockets failed (lib/main/ws_manager.py:27-28); only then does Python raise `RuntimeError` for the changed dict. A broadcast that deletes no key goes through.
- `WsManager.ConnectionManager.BroadcastToDevice` and `Api.Server.ReceiveFromDevice` require the manager's index (`Valid()`), a condition the source itself never checks. Every reachable state meets it. The only caller of `connect` (main.py:298) passes the fresh socket object of a new connection, under the path id of `/ws/data/{device_id}`, which cannot be empty. `Connect` then keeps the index, and every other operation keeps it by its own ensures.
- The WebSocket I/O itself. A socket's `client_state` and whether its send raises are inputs.
- `Api.PredictStunting` takes the guidance tables as a parameter; the server's fixed tables are `Prediction.Guidance`, and `Prediction.PenanganaGejalan` is the composition over them.
- `Api.ArityErrorText` and `Api.ZscoreErrorText` assume the text `str()` gives for the `TypeError` and for the `HTTPException`.
- The hardware and network calls of the firmware:
  - the LCD and LED matrix;
  - BLE scanning start-up and the endless halt when BLE fails to start;
  - the WiFi connection loop, `delay` and the serial log;
  - the HTTP client. Each post's outcome is an input.

  The `sudahMulai` flag is not modelled either. It guards all of `loop()` (IOT.cpp:256), but `setup()` sets it as its last step (IOT.cpp:252), so it is always true when `loop()` runs.
- The unsigned wrap-around of `millis()` is not modelled: time is a natural number, differences are exact, and each `loop()` call reads the clock once.
- Interleaving at `await`. `WsManager.ConnectionManager.BroadcastToDevice` and `WsManager.ConnectionManager.SendPersonalMessage` await each send (lib/main/ws_manager.py:39, 53), `Api.Server.ReceiveFromDevice` awaits the broadcast (main.py:148), and the `/ws/data` loop awaits its send and its sleep (main.py:327-328). Other coroutines may run at those points; the model treats each call as atomic.
- Logging and printing: the logger calls of lib/prediction/zscore.py:30-51, main.py:226 and main.py:330-334 (the `/ws/data` handler), and the prints of lib/main/ws_manager.py:21, 33, 41 and 57 and of lib/prediction/parser.py:39 and 62. They change no state the model tracks.
- `ZScoreRobust.Problem.Message` takes Python's `str` of a float as a parameter: the texts of the weight and height checks are modelled up to that formatting.
- The `__main__` drivers of the scripts (the DataFrame loop, the printing loop, argument parsing and random measurements of the simulator), and the other test and client scripts, which hold no logic of their own.

## Findings

| source | as written | input that shows it | evidently intended | confidence | as-written member | corrected member |
|---|---|---|---|---|---|---|
| main.py:228, lib/prediction/prediction.py:97 | `penangana_gejalan` is declared inside the class without `self` but called on the instance, so Python passes four arguments to a three-parameter function and raises `TypeError`; the blanket handler turns it into a 500 | any `/predict` request whose date, sex, z-scores and classifiers all succeed | the call composes the guidance from the three labels and returns it with the prediction | not executed | Api.PredictStuntingAsWritten, Api.AsWrittenFailsWhereCorrectedSucceeds | Api.PredictStunting |
