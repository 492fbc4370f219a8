/**
 * The measurement entities of custom_components/a_tfa_me_1/sensor.py: the per-device-type
 * timeout, the value an entity shows (stale values, the relative rain since a reset, the
 * rain of the last hour), its icon and name, the device strings, and the discovery of new
 * entities. The clock is the parameter `now` (Unix seconds).
 */
module Sensor {
  import opened Wrappers
  import opened Text
  import opened Values
  import opened History
  import opened Coordinator

  // ---- Device tables, keyed by the first two characters of the sensor id ----

  /** Timeout = 2 * transmission interval + 30 seconds. */
  const TimeoutFor1Min: int := 2 * 1 * 60 + 30
  const TimeoutFor5Min: int := 2 * 5 * 60 + 30
  const TimeoutFor120Min: int := 2 * 120 * 60 + 30

  const TimeoutMapping: map<string, int> := map[
    "01" := TimeoutFor5Min, "02" := TimeoutFor5Min, "03" := TimeoutFor5Min, "04" := TimeoutFor5Min,
    "05" := TimeoutFor5Min, "06" := TimeoutFor5Min, "07" := TimeoutFor5Min, "08" := TimeoutFor5Min,
    "99" := TimeoutFor5Min,
    "A0" := TimeoutFor5Min, "A1" := TimeoutFor120Min, "A2" := TimeoutFor5Min, "A3" := TimeoutFor5Min,
    "A4" := TimeoutFor1Min, "A5" := TimeoutFor5Min, "A6" := TimeoutFor1Min]

  const DeviceMapping: map<string, string> := map[
    "01" := "Station 01: T/H", "02" := "Station 02: T/H", "03" := "Station 03: T/H",
    "04" := "Station 04: T/H", "05" := "Station 05: T/H/BP", "06" := "Station 06: T/H",
    "07" := "Station 07: T/H", "08" := "Station 08: T/H",
    "99" := "Station 99: T/H/BP/CO2",
    "A0" := "Sensor A0: T/H", "A1" := "Sensor A1: Rain", "A2" := "Sensor A2: Wind: D/W/G",
    "A3" := "Sensor A3: T/TP", "A4" := "Sensor Prof. A4: T/H/TP", "A5" := "Sensor A5: T",
    "A6" := "Sensor Prof. A6: T/H"]

  /** `sensor_id[:2].upper()` */
  function DeviceType(sensorId: string): string {
    Upper(Prefix(sensorId, 2))
  }

  /** `get_timeout`: the table entry for the device type, 0 for an unknown type. */
  function GetTimeout(sensorId: string): (r: int)
    ensures r == 0 || r == TimeoutFor1Min || r == TimeoutFor5Min || r == TimeoutFor120Min
    ensures r == 0 <==> DeviceType(sensorId) !in TimeoutMapping
  {
    var key := DeviceType(sensorId);
    if key in TimeoutMapping then TimeoutMapping[key] else 0
  }

  /** The device type is read case-insensitively. */
  lemma GetTimeoutIgnoresCase(sensorId: string)
    ensures GetTimeout(Lower(sensorId)) == GetTimeout(sensorId)
  {
    assert DeviceType(Lower(sensorId)) == DeviceType(sensorId);
  }

  /** `format_string_tfa_type`: the device description, or "?" for an unknown type. */
  function FormatTfaType(s: string): (r: string)
    ensures r == "?" <==> DeviceType(s) !in DeviceMapping
  {
    var typeId := DeviceType(s);
    if typeId in DeviceMapping then DeviceMapping[typeId] else "?"
  }

  /** Exactly the device types that have a description have a timeout. */
  lemma TimeoutIffDescribed(sensorId: string)
    ensures GetTimeout(sensorId) != 0 <==> FormatTfaType(sensorId) != "?"
  {
    assert TimeoutMapping.Keys == DeviceMapping.Keys;
  }

  /**
   * `int(sensor_id[:2], 16) < 160`, the rule for the configuration link of a station's device;
   * None where the conversion raises.
   */
  function IsStation(sensorId: string): Option<bool> {
    var v := IntBase16(Prefix(sensorId, 2));
    if v.None? then None else Some(v.value < 160)
  }

  /**
   * For an id starting with two hex digits the rule reads: a station exactly when the
   * first character is a decimal digit (types 00..9F), a sensor when it is a letter A..F.
   */
  lemma StationIffDigitFirst(sensorId: string)
    requires |sensorId| >= 2 && IsHexDigit(sensorId[0]) && IsHexDigit(sensorId[1])
    ensures IsStation(sensorId) == Some(IsDigit(sensorId[0]))
  {
    var p := Prefix(sensorId, 2);
    assert p == sensorId[..2];
    assert Strip(p) == p;
  }

  /** `format_string_tfa_id`: 'TFA.me XXX-XXX-XXX', with '(GATEWAY)' appended in multi-entity mode. */
  function FormatTfaId(s: string, gatewayId: string, multipleEntities: bool): string {
    var body := "TFA.me " + Upper(Prefix(s, 3)) + "-" + Upper(Slice(s, 3, 6)) + "-" + Upper(Drop(s, 6));
    if multipleEntities then body + "(" + Upper(gatewayId) + ")" else body
  }

  /** `Upper` works character by character, so it commutes with slicing. */
  lemma UpperSlice(s: string, i: nat, j: nat)
    requires i <= j <= |s|
    ensures Upper(s[i..j]) == Upper(s)[i..j]
  {
  }

  /**
   * For an id of at least six characters, the id text is "TFA.me " followed by the upper-cased
   * id in groups of three, three and the rest, separated by dashes.
   */
  lemma FormatTfaIdLayout(s: string, gatewayId: string, multipleEntities: bool)
    requires |s| >= 6
    ensures FormatTfaId(s, gatewayId, multipleEntities)
      == "TFA.me " + Upper(s)[..3] + "-" + Upper(s)[3..6] + "-" + Upper(s)[6..]
         + (if multipleEntities then "(" + Upper(gatewayId) + ")" else "")
  {
    UpperSlice(s, 0, 3);
    UpperSlice(s, 3, 6);
    UpperSlice(s, 6, |s|);
  }

  /** Reads the upper-cased id back out of an id text: drops "TFA.me " and the two dashes. */
  function UnformatTfaId(r: string): string
    requires |r| >= 15
  {
    r[7..10] + r[11..14] + r[15..]
  }

  /** In single-entity mode the id text determines the upper-cased id. */
  lemma {:induction false} FormatTfaIdRoundTrip(s: string, gatewayId: string)
    requires |s| >= 6
    ensures |FormatTfaId(s, gatewayId, false)| >= 15
    ensures UnformatTfaId(FormatTfaId(s, gatewayId, false)) == Upper(s)
  {
    FormatTfaIdLayout(s, gatewayId, false);
    var u := Upper(s);
    var r := "TFA.me " + u[..3] + "-" + u[3..6] + "-" + u[6..];
    assert r[7..10] == u[..3] && r[11..14] == u[3..6] && r[15..] == u[6..];
    assert u[..3] + u[3..6] + u[6..] == u;
  }

  // ---- Icons ----

  const ThermometerDefault := "mdi:thermometer"
  const ThermometerHigh := "mdi:thermometer-high"
  const ThermometerLow := "mdi:thermometer-low"
  const HumidityDefault := "mdi:water-percent"
  const HumidityAlert := "mdi:water-percent-alert"
  const Co2Default := "mdi:molecule-co2"
  const PressureDefault := "mdi:gauge"
  const RssiWeak := "mdi:wifi-strength-1"
  const RssiMiddle := "mdi:wifi-strength-2"
  const RssiGood := "mdi:wifi-strength-3"
  const RssiStrong := "mdi:wifi-strength-4"
  const BatteryLow := "mdi:battery-alert"
  const BatteryFull := "mdi:battery"
  const WindVariant := "mdi:weather-windy-variant"
  const WindDefault := "mdi:weather-windy"
  const RainModerate := "mdi:weather-rainy"
  const Compass := "mdi:compass-outline"
  const HelpIcon := "mdi:help-circle"

  /** The arrows for the direction codes 0-1, 2-3, ..., 14-15 (North first). */
  const WindArrows: seq<string> := [
    "mdi:arrow-down", "mdi:arrow-bottom-left", "mdi:arrow-left", "mdi:arrow-top-left",
    "mdi:arrow-up", "mdi:arrow-top-right", "mdi:arrow-right", "mdi:arrow-bottom-right"]

  /** Every icon name that `get_icon` may return: those of the icon table and the fallback. */
  const KnownIcons: set<string> := {
    ThermometerDefault, ThermometerHigh, ThermometerLow, HumidityDefault, HumidityAlert,
    Co2Default, PressureDefault, RssiWeak, RssiMiddle, RssiGood, RssiStrong, BatteryLow, BatteryFull,
    WindVariant, WindDefault, RainModerate, Compass, HelpIcon,
    "mdi:arrow-down", "mdi:arrow-bottom-left", "mdi:arrow-left", "mdi:arrow-top-left",
    "mdi:arrow-up", "mdi:arrow-top-right", "mdi:arrow-right", "mdi:arrow-bottom-right"}

  /** `get_wind_direction_icon` exactly as written, misspelt name for codes 2-3 included. */
  function WindDirectionIconAsWritten(value: Option<real>): string {
    match value
    case None => Compass
    case Some(v) =>
      if 0.0 <= v <= 1.0 then "mdi:arrow-down"
      else if 2.0 <= v <= 3.0 then "mdi:aarrow-bottom-left"
      else if 4.0 <= v <= 5.0 then "mdi:arrow-left"
      else if 6.0 <= v <= 7.0 then "mdi:arrow-top-left"
      else if 8.0 <= v <= 9.0 then "mdi:arrow-up"
      else if 10.0 <= v <= 11.0 then "mdi:arrow-top-right"
      else if 12.0 <= v <= 13.0 then "mdi:arrow-right"
      else if 14.0 <= v <= 15.0 then "mdi:arrow-bottom-right"
      else Compass
  }

  /** The misspelt name is returned for code 2, and it is not an icon name of the table. */
  lemma WindDirectionAsWrittenMisspelt()
    ensures WindDirectionIconAsWritten(Some(2.0)) == "mdi:aarrow-bottom-left"
    ensures WindDirectionIconAsWritten(Some(2.0)) !in KnownIcons
  {
  }

  /** `get_wind_direction_icon` with the arrow name for codes 2-3 spelt as intended. */
  function WindDirectionIcon(value: Option<real>): (r: string)
    ensures r in KnownIcons
  {
    match value
    case None => Compass
    case Some(v) =>
      if 0.0 <= v <= 1.0 then WindArrows[0]
      else if 2.0 <= v <= 3.0 then WindArrows[1]
      else if 4.0 <= v <= 5.0 then WindArrows[2]
      else if 6.0 <= v <= 7.0 then WindArrows[3]
      else if 8.0 <= v <= 9.0 then WindArrows[4]
      else if 10.0 <= v <= 11.0 then WindArrows[5]
      else if 12.0 <= v <= 13.0 then WindArrows[6]
      else if 14.0 <= v <= 15.0 then WindArrows[7]
      else Compass
  }

  /** The correction changes nothing outside the codes 2-3. */
  lemma WindDirectionCorrectionOnly(v: real)
    requires v < 2.0 || v > 3.0
    ensures WindDirectionIcon(Some(v)) == WindDirectionIconAsWritten(Some(v))
  {
  }

  /**
   * The bucket of a direction value: bucket k holds the closed range [2k, 2k + 1] for k in 0..7;
   * values outside 0..15 or strictly between two buckets (such as 1.5) have none.
   */
  function WindBucket(v: real): Option<nat> {
    if 0.0 <= v <= 15.0 then
      var f := v.Floor;
      if f % 2 == 0 then Some(f / 2)
      else if v == f as real then Some(f / 2)
      else None
    else None
  }

  /** The icon is the bucket's arrow, and the compass exactly where there is no bucket. */
  lemma {:induction false} WindDirectionByBucket(v: real)
    ensures WindBucket(v).Some? ==> WindBucket(v).value < 8 && WindDirectionIcon(Some(v)) == WindArrows[WindBucket(v).value]
    ensures WindBucket(v).None? ==> WindDirectionIcon(Some(v)) == Compass
  {
    if 0.0 <= v <= 15.0 {
      var f := v.Floor;
      assert 0 <= f <= 15 && f as real <= v < f as real + 1.0;
      var k := f / 2;
      assert 0 <= k < 8 && (f == 2 * k || f == 2 * k + 1);
      if f % 2 == 0 || v == f as real {
        IconInRange(v, k);
      } else {
        IconBetweenRanges(v, k);
      }
    }
  }

  /** A value in the closed range [2k, 2k + 1] shows the k-th arrow. */
  lemma IconInRange(v: real, k: nat)
    requires k < 8 && (2 * k) as real <= v <= (2 * k) as real + 1.0
    ensures WindDirectionIcon(Some(v)) == WindArrows[k]
  {
  }

  /** A value strictly between the ranges [2k, 2k + 1] and [2k + 2, 2k + 3] shows the compass. */
  lemma IconBetweenRanges(v: real, k: nat)
    requires (2 * k) as real + 1.0 < v < (2 * k) as real + 2.0
    ensures WindDirectionIcon(Some(v)) == Compass
  {
  }

  /** `get_icon`, with the corrected wind-direction table. */
  function GetIcon(measurementType: Option<string>, value: Option<real>): (r: string)
    ensures r in KnownIcons
  {
    if measurementType == Some("temperature") || measurementType == Some("temperature_probe") then
      if value.None? then ThermometerDefault
      else if value.value >= 25.0 then ThermometerHigh
      else if value.value <= 0.0 then ThermometerLow
      else ThermometerDefault
    else if measurementType == Some("humidity") then
      if value.None? then HumidityDefault
      else if value.value >= 65.0 || value.value <= 30.0 then HumidityAlert
      else HumidityDefault
    else if measurementType == Some("co2") then Co2Default
    else if measurementType == Some("barometric_pressure") then PressureDefault
    else if measurementType == Some("rssi") then
      if value.None? then RssiWeak
      else if value.value < 100.0 then RssiWeak
      else if value.value < 150.0 then RssiMiddle
      else if value.value < 220.0 then RssiGood
      else RssiStrong
    else if measurementType == Some("lowbatt") then
      if value == Some(1.0) then BatteryLow else BatteryFull
    else if measurementType == Some("wind_direction") then WindDirectionIcon(value)
    else if measurementType == Some("wind_gust") then WindVariant
    else if measurementType == Some("wind_speed") then WindDefault
    else if measurementType == Some("rain") then RainModerate
    else HelpIcon
  }

  /** Temperature thresholds: high from 25 up, low from 0 down, default otherwise and without a value. */
  lemma TemperatureIcon(t: string, v: real)
    requires t == "temperature" || t == "temperature_probe"
    ensures GetIcon(Some(t), Some(v)) == ThermometerHigh <==> v >= 25.0
    ensures GetIcon(Some(t), Some(v)) == ThermometerLow <==> v <= 0.0
    ensures GetIcon(Some(t), None) == ThermometerDefault
  {
  }

  /** Humidity: the alert icon at 65 and above or at 30 and below. */
  lemma HumidityIcon(v: real)
    ensures GetIcon(Some("humidity"), Some(v)) == HumidityAlert <==> v >= 65.0 || v <= 30.0
  {
  }

  /** Battery: value 1 gives the alert icon, anything else (no value too) the full battery. */
  lemma LowBatteryIcon(value: Option<real>)
    ensures GetIcon(Some("lowbatt"), value) == (if value == Some(1.0) then BatteryLow else BatteryFull)
  {
  }

  function RssiLevel(icon: string): nat {
    if icon == RssiWeak then 1 else if icon == RssiMiddle then 2 else if icon == RssiGood then 3 else 4
  }

  /** The reception icon never shows fewer bars for a stronger signal; no value shows one bar. */
  lemma RssiIconMonotone(v1: real, v2: real)
    requires v1 <= v2
    ensures RssiLevel(GetIcon(Some("rssi"), Some(v1))) <= RssiLevel(GetIcon(Some("rssi"), Some(v2)))
    ensures GetIcon(Some("rssi"), None) == RssiWeak
  {
  }

  // ---- Name ----

  /**
   * `name`: "<sensor_name> <Measurement>" with "Rssi" -> "RSSI", "Co2" -> "CO2" and "_" -> " ";
   * the text "None" when the entity or one of the two fields is missing.
   */
  function Name(data: map<string, EntityData>, entityId: string): string {
    if entityId !in data || data[entityId].sensorName.None? || data[entityId].measurement.None? then "None"
    else
      var str1 := data[entityId].sensorName.value + " " + Capitalize(data[entityId].measurement.value);
      ReplaceAll(ReplaceAll(ReplaceAll(str1, "Rssi", "RSSI"), "Co2", "CO2"), "_", " ")
  }

  /** A name never contains an underscore. */
  lemma NameHasNoUnderscore(data: map<string, EntityData>, entityId: string)
    ensures '_' !in Name(data, entityId)
  {
    if Name(data, entityId) != "None" {
      var d := data[entityId];
      var str1 := d.sensorName.value + " " + Capitalize(d.measurement.value);
      ReplaceCharRemovesIt(ReplaceAll(ReplaceAll(str1, "Rssi", "RSSI"), "Co2", "CO2"), "_", " ");
    }
  }

  /**
   * The text "None" comes back exactly when the record or one of its two fields is missing:
   * a real name keeps the space between sensor name and measurement, which "None" lacks.
   */
  lemma NameNoneIffMissing(data: map<string, EntityData>, entityId: string)
    ensures Name(data, entityId) == "None" <==>
      entityId !in data || data[entityId].sensorName.None? || data[entityId].measurement.None?
  {
    if entityId in data && data[entityId].sensorName.Some? && data[entityId].measurement.Some? {
      var d := data[entityId];
      var str1 := d.sensorName.value + " " + Capitalize(d.measurement.value);
      assert str1[|d.sensorName.value|] == ' ';
      var str2 := ReplaceAll(str1, "Rssi", "RSSI");
      ReplaceKeepsChar(str1, "Rssi", "RSSI", ' ');
      var str3 := ReplaceAll(str2, "Co2", "CO2");
      ReplaceKeepsChar(str2, "Co2", "CO2", ' ');
      ReplaceKeepsChar(str3, "_", " ", ' ');
      assert ' ' !in "None";
    }
  }

  // ---- The value an entity shows ----

  /** The window of the rain-hour history: `SensorHistory(max_age_minutes=60)`. */
  const RainMaxAge: int := 60 * 60

  /** The result of one read of `native_value` and the state it leaves behind. */
  datatype Resolution = Resolution(
    value: Option<Scalar>,
    baseline: Scalar,
    history: seq<Sample>,
    data: map<string, EntityData>)

  /**
   * `native_value` of entity `entityId` (device `sensorId`) with baseline `baseline` and rain
   * history `history`, reading `data` at time `now`. A None value is "unavailable".
   */
  function Resolve(entityId: string, sensorId: string, data: map<string, EntityData>,
                   baseline: Scalar, history: seq<Sample>, now: int): Resolution
  {
    var unavailable := Resolution(None, baseline, history, data);
    if entityId !in data || data[entityId].ts.None? then unavailable
    else
      var d := data[entityId];
      match IntOf(d.ts.value)
      case None => unavailable
      case Some(lastUpdate) =>
        if now - lastUpdate > GetTimeout(sensorId) then unavailable
        else if d.value.None? then unavailable
        else if Contains(entityId, "rain_rel") then ResolveRelative(entityId, data, baseline, history)
        else if Contains(entityId, "rain_hour") then ResolveHour(entityId, data, baseline, history, now)
        else Resolution(Some(d.value.value), baseline, history, data)
  }

  /** The "rain_rel" rule: a set `reset_rain` flag moves the baseline and is cleared. */
  function ResolveRelative(entityId: string, data: map<string, EntityData>, baseline: Scalar, history: seq<Sample>): Resolution
    requires entityId in data && data[entityId].value.Some?
  {
    var d := data[entityId];
    var current := d.value.value;
    if d.resetRain.None? then Resolution(None, baseline, history, data)
    else
      var reset := Truthy(d.resetRain.value);
      var baseline' := if reset then current else baseline;
      var data' := if reset then data[entityId := d.(resetRain := Some(Bool(false)))] else data;
      var c := FloatOf(current);
      var b := FloatOf(baseline');
      if c.None? || b.None? then Resolution(None, baseline', history, data')
      else Resolution(Some(Float(Round1(c.value - b.value))), baseline', history, data')
  }

  /**
   * The sample a "rain_hour" entity reads from its base entity (the key without "_hour"):
   * its value and `ts`, when both are present and numeric.
   */
  function BaseSample(entityId: string, data: map<string, EntityData>): Option<Sample> {
    var baseKey := ReplaceAll(entityId, "_hour", "");
    if baseKey !in data || data[baseKey].value.None? || data[baseKey].ts.None? then None
    else
      var value := FloatOf(data[baseKey].value.value);
      var ts := IntOf(data[baseKey].ts.value);
      if value.None? || ts.None? then None else Some(Sample(value.value, ts.value))
  }

  /** The "rain_hour" rule: push the base entity's sample, then newest minus oldest. */
  function ResolveHour(entityId: string, data: map<string, EntityData>, baseline: Scalar, history: seq<Sample>, now: int): Resolution
  {
    match BaseSample(entityId, data)
    case None => Resolution(None, baseline, history, data)
    case Some(sample) =>
      var h := PushSample(history, sample, now);
      Resolution(Some(Float(WindowAmount(h))), baseline, h, data)
  }

  /** One step of the rain-hour history: push the sample, then drop what left the window. */
  function PushSample(history: seq<Sample>, s: Sample, now: int): seq<Sample> {
    Evict(history + [s], now - RainMaxAge)
  }

  /** Newest minus oldest, rounded to tenths; 0.0 with fewer than two samples. */
  function WindowAmount(h: seq<Sample>): real {
    if |h| >= 2 then Round1(Last(h).value - h[0].value) else 0.0
  }

  /** The timestamp of an entity's record, when it is present and numeric. */
  function LastUpdate(data: map<string, EntityData>, entityId: string): Option<int> {
    if entityId in data && data[entityId].ts.Some? then IntOf(data[entityId].ts.value) else None
  }

  /** A missing record, a missing or non-numeric `ts`, or a stale one: unavailable, and nothing changes. */
  lemma UnavailableWhenMissingOrStale(entityId: string, sensorId: string, data: map<string, EntityData>,
                                      baseline: Scalar, history: seq<Sample>, now: int)
    requires LastUpdate(data, entityId).None? || now - LastUpdate(data, entityId).value > GetTimeout(sensorId)
    ensures Resolve(entityId, sensorId, data, baseline, history, now) == Resolution(None, baseline, history, data)
  {
  }

  /**
   * A plain entity shows its raw value exactly when its age is at most the timeout (the
   * boundary itself still shows it), and reading it changes nothing.
   */
  lemma PlainValueIffFresh(entityId: string, sensorId: string, data: map<string, EntityData>,
                           baseline: Scalar, history: seq<Sample>, now: int)
    requires !Contains(entityId, "rain_rel") && !Contains(entityId, "rain_hour")
    requires LastUpdate(data, entityId).Some? && data[entityId].value.Some?
    ensures var r := Resolve(entityId, sensorId, data, baseline, history, now);
      && (r.value.Some? <==> now - LastUpdate(data, entityId).value <= GetTimeout(sensorId))
      && (r.value.Some? ==> r.value.value == data[entityId].value.value)
      && r.baseline == baseline && r.history == history && r.data == data
  {
  }

  /**
   * A fresh "rain_rel" read with `reset_rain` set takes the current value as the baseline,
   * clears the flag in the data, and shows 0.0 for a numeric value.
   */
  lemma RelativeResetTakesBaseline(entityId: string, sensorId: string, data: map<string, EntityData>,
                                   baseline: Scalar, history: seq<Sample>, now: int)
    requires Contains(entityId, "rain_rel")
    requires LastUpdate(data, entityId).Some? && now - LastUpdate(data, entityId).value <= GetTimeout(sensorId)
    requires data[entityId].value.Some? && data[entityId].resetRain.Some? && Truthy(data[entityId].resetRain.value)
    ensures var r := Resolve(entityId, sensorId, data, baseline, history, now);
      && r.baseline == data[entityId].value.value
      && r.data == data[entityId := data[entityId].(resetRain := Some(Bool(false)))]
      && (FloatOf(data[entityId].value.value).Some? ==> r.value == Some(Float(0.0)))
  {
  }

  /** A fresh "rain_rel" read without a reset shows the current value minus the baseline, rounded. */
  lemma RelativeAgainstBaseline(entityId: string, sensorId: string, data: map<string, EntityData>,
                                baseline: Scalar, history: seq<Sample>, now: int)
    requires Contains(entityId, "rain_rel")
    requires LastUpdate(data, entityId).Some? && now - LastUpdate(data, entityId).value <= GetTimeout(sensorId)
    requires data[entityId].value.Some? && data[entityId].resetRain.Some? && !Truthy(data[entityId].resetRain.value)
    requires FloatOf(data[entityId].value.value).Some? && FloatOf(baseline).Some?
    ensures var r := Resolve(entityId, sensorId, data, baseline, history, now);
      && r.value == Some(Float(Round1(FloatOf(data[entityId].value.value).value - FloatOf(baseline).value)))
      && r.baseline == baseline && r.data == data
  {
  }

  /**
   * Reading a plain or "rain_rel" entity twice with nothing in between gives the same value
   * and the same state as reading it once: the reset fires once.
   */
  lemma ReadTwiceSameAsOnce(entityId: string, sensorId: string, data: map<string, EntityData>,
                            baseline: Scalar, history: seq<Sample>, now: int)
    requires Contains(entityId, "rain_rel") || !Contains(entityId, "rain_hour")
    ensures var r1 := Resolve(entityId, sensorId, data, baseline, history, now);
      Resolve(entityId, sensorId, r1.data, r1.baseline, r1.history, now) == r1
  {
    var r1 := Resolve(entityId, sensorId, data, baseline, history, now);
    if entityId in data && data[entityId].ts.Some? {
      assert r1.data[entityId].ts == data[entityId].ts && r1.data[entityId].value == data[entityId].value;
    }
  }

  /**
   * A fresh "rain_hour" read whose base sample is no older than the history's newest and
   * inside the window keeps the history chronological and inside the window, and shows the
   * rounded difference between the newest and the oldest sample, or 0.0 with fewer than two.
   */
  lemma HourWindow(entityId: string, sensorId: string, data: map<string, EntityData>,
                   baseline: Scalar, history: seq<Sample>, now: int, v: real, t: int)
    requires !Contains(entityId, "rain_rel") && Contains(entityId, "rain_hour")
    requires LastUpdate(data, entityId).Some? && now - LastUpdate(data, entityId).value <= GetTimeout(sensorId)
    requires data[entityId].value.Some?
    requires BaseSample(entityId, data) == Some(Sample(v, t))
    requires Chronological(history) && (history == [] || Last(history).ts <= t) && t >= now - RainMaxAge
    ensures var r := Resolve(entityId, sensorId, data, baseline, history, now);
      && r.history != [] && Last(r.history) == Sample(v, t) && Chronological(r.history)
      && (forall i :: 0 <= i < |r.history| ==> r.history[i].ts >= now - RainMaxAge)
      && r.value == Some(Float(if |r.history| >= 2 then Round1(v - r.history[0].value) else 0.0))
      && r.baseline == baseline && r.data == data
  {
    var baseKey := ReplaceAll(entityId, "_hour", "");
    var h := PushSample(history, Sample(v, t), now);
    assert ResolveHour(entityId, data, baseline, history, now) == Resolution(Some(Float(WindowAmount(h))), baseline, h, data);
    assert Resolve(entityId, sensorId, data, baseline, history, now) == ResolveHour(entityId, data, baseline, history, now);
    PushSampleWindow(history, v, t, now);
    WindowAmountOfNewest(h, Sample(v, t));
  }

  /**
   * Pushing a sample no older than the newest and inside the window onto a chronological
   * history keeps it chronological and inside the window, and ends it with that sample.
   */
  lemma PushSampleWindow(history: seq<Sample>, v: real, t: int, now: int)
    requires Chronological(history) && (history == [] || Last(history).ts <= t) && t >= now - RainMaxAge
    ensures var h := PushSample(history, Sample(v, t), now);
      && h != [] && Last(h) == Sample(v, t) && Chronological(h)
      && (forall i :: 0 <= i < |h| ==> h[i].ts >= now - RainMaxAge)
  {
    AppendAndEvict(history, Sample(v, t), now - RainMaxAge);
  }

  /** A history that ends with the sample just pushed measures that sample against the oldest. */
  lemma WindowAmountOfNewest(h: seq<Sample>, newest: Sample)
    requires h != [] && Last(h) == newest
    ensures WindowAmount(h) == (if |h| >= 2 then Round1(newest.value - h[0].value) else 0.0)
  {
  }

  /**
   * The relative-rain scenario of a rain sensor (type A1): a read at time t of 10.0 mm with
   * `reset_rain` set shows 0.0 and takes 10.0 as the baseline; a later read ten minutes on,
   * of 12.5 mm without a reset, shows 2.5.
   */
  lemma RelativeRainScenario(t: int)
    ensures var eid := "sensor.a1_rain_rel";
      var d0 := map[eid := EntityData(Some("a1"), Some("gw"), Some("a1"), Some("rain_rel"), Some(Float(10.0)),
                                       Some("mm"), None, Some(Int(t)), Some(Bool(true)))];
      var r1 := Resolve(eid, "a1", d0, Float(0.0), [], t);
      var d1 := r1.data[eid := r1.data[eid].(value := Some(Float(12.5)), ts := Some(Int(t + 600)))];
      var r2 := Resolve(eid, "a1", d1, r1.baseline, r1.history, t + 600);
      && r1.value == Some(Float(0.0)) && r1.baseline == Float(10.0)
      && r2.value == Some(Float(2.5)) && r2.baseline == Float(10.0)
  {
    var eid := "sensor.a1_rain_rel";
    assert Contains(eid, "rain_rel") by {
      assert eid[10..] == "rain_rel";
      ContainsSuffix(eid, 10, "rain_rel");
    }
    assert GetTimeout("a1") == TimeoutFor120Min by {
      assert DeviceType("a1") == "A1";
    }
    var d0 := map[eid := EntityData(Some("a1"), Some("gw"), Some("a1"), Some("rain_rel"), Some(Float(10.0)),
                                     Some("mm"), None, Some(Int(t)), Some(Bool(true)))];
    RelativeResetTakesBaseline(eid, "a1", d0, Float(0.0), [], t);
    var r1 := Resolve(eid, "a1", d0, Float(0.0), [], t);
    var e1 := d0[eid].(resetRain := Some(Bool(false)));
    assert r1.data == d0[eid := e1] && r1.baseline == Float(10.0);
    var e2 := e1.(value := Some(Float(12.5)), ts := Some(Int(t + 600)));
    var d1 := r1.data[eid := r1.data[eid].(value := Some(Float(12.5)), ts := Some(Int(t + 600)))];
    assert d1[eid] == e2;
    assert LastUpdate(d1, eid) == Some(t + 600);
    RelativeAgainstBaseline(eid, "a1", d1, r1.baseline, r1.history, t + 600);
    Round1OfTenthsDifference(12.5, 10.0);
  }

  /** Reading a record that the poll wrote (it has no `ts`) always gives "unavailable". */
  lemma PolledRecordsResolveUnavailable(entityId: string, sensorId: string, snapshot: Snapshot,
                                        baseline: Scalar, history: seq<Sample>, now: int)
    ensures var data := map k | k in snapshot :: AsEntityData(snapshot[k]);
      Resolve(entityId, sensorId, data, baseline, history, now).value.None?
  {
  }

  /**
   * The entity constructor runs to its end: the record has `gateway_id`, `measurement` and
   * `value`, the device type converts with `int(_, 16)` and the value with `float()`.
   * Anything else raises out of the constructor.
   */
  predicate Constructible(data: map<string, EntityData>, sensorId: string, entityId: string) {
    && entityId in data
    && data[entityId].gatewayId.Some?
    && IsStation(sensorId).Some?
    && data[entityId].measurement.Some?
    && data[entityId].value.Some?
    && FloatOf(data[entityId].value.value).Some?
  }

  /**
   * One TFA.me measurement entity. `coordinator.data` is shared with all entities; a
   * "rain_rel" read writes the cleared reset flag back into it.
   */
  class SensorEntity {
    const coordinator: DataCoordinator
    const sensorId: string
    const entityId: string
    const gatewayId: string
    const measureName: string
    /** The baseline of a "rain_rel" entity: its value at construction or at the last reset. */
    var initMeasureValue: Scalar
    const rainHistory: SensorHistory
    /** The link to the station's menu, added to the device of a station only. */
    const configurationUrl: Option<string>

    ghost predicate Valid() {
      rainHistory.maxAge == RainMaxAge
    }

    constructor (coordinator: DataCoordinator, sensorId: string, entityId: string)
      requires Constructible(coordinator.data, sensorId, entityId)
      ensures Valid() && fresh(rainHistory) && rainHistory.data == []
      ensures this.coordinator == coordinator && this.sensorId == sensorId && this.entityId == entityId
      ensures gatewayId == coordinator.data[entityId].gatewayId.value
      ensures measureName == coordinator.data[entityId].measurement.value
      ensures initMeasureValue == coordinator.data[entityId].value.value
      ensures configurationUrl ==
        (if IsStation(sensorId) == Some(true) then Some("http://" + coordinator.host + "/ha_menu") else None)
    {
      this.coordinator := coordinator;
      this.sensorId := sensorId;
      this.entityId := entityId;
      gatewayId := coordinator.data[entityId].gatewayId.value;
      rainHistory := new SensorHistory(60);
      var hexValue := IntBase16(Prefix(sensorId, 2));
      configurationUrl := if hexValue.value < 160 then Some("http://" + coordinator.host + "/ha_menu") else None;
      measureName := coordinator.data[entityId].measurement.value;
      initMeasureValue := coordinator.data[entityId].value.value;
    }

    /** `native_value` at clock reading `now`. */
    method NativeValue(now: int) returns (v: Option<Scalar>)
      requires Valid()
      modifies this`initMeasureValue, rainHistory, coordinator`data
      ensures Valid()
      ensures var r := Resolve(entityId, sensorId, old(coordinator.data), old(initMeasureValue), old(rainHistory.data), now);
        && v == r.value && initMeasureValue == r.baseline
        && rainHistory.data == r.history && coordinator.data == r.data
    {
      var data := coordinator.data;
      if entityId !in data || data[entityId].ts.None? {
        return None;
      }
      var lastUpdate := IntOf(data[entityId].ts.value);
      if lastUpdate.None? {
        return None;
      }
      var timeout := GetTimeout(sensorId);
      if now - lastUpdate.value > timeout {
        return None;
      }
      var record := data[entityId];
      if record.value.None? {
        return None;
      }
      if Contains(entityId, "rain_rel") {
        v := ReadRelative();
      } else if Contains(entityId, "rain_hour") {
        v := ReadHour(now);
      } else {
        v := Some(record.value.value);
      }
    }

    /** The "rain_rel" branch of `native_value`. */
    method ReadRelative() returns (v: Option<Scalar>)
      requires entityId in coordinator.data && coordinator.data[entityId].value.Some?
      modifies this`initMeasureValue, coordinator`data
      ensures var r := ResolveRelative(entityId, old(coordinator.data), old(initMeasureValue), rainHistory.data);
        v == r.value && initMeasureValue == r.baseline && coordinator.data == r.data
    {
      var data := coordinator.data;
      var record := data[entityId];
      var measurementValue := record.value.value;
      if record.resetRain.None? {
        return None;
      }
      if Truthy(record.resetRain.value) {
        initMeasureValue := measurementValue;
        coordinator.data := data[entityId := record.(resetRain := Some(Bool(false)))];
      }
      var current := FloatOf(measurementValue);
      var base := FloatOf(initMeasureValue);
      if current.None? || base.None? {
        return None;
      }
      return Some(Float(Round1(current.value - base.value)));
    }

    /** The "rain_hour" branch of `native_value`. */
    method ReadHour(now: int) returns (v: Option<Scalar>)
      requires Valid()
      modifies rainHistory
      ensures var r := ResolveHour(entityId, coordinator.data, initMeasureValue, old(rainHistory.data), now);
        v == r.value && rainHistory.data == r.history
    {
      var sample := BaseSample(entityId, coordinator.data);
      if sample.None? {
        return None;
      }
      ghost var h := PushSample(rainHistory.data, sample.value, now);
      rainHistory.AddMeasurement(sample.value.value, sample.value.ts, now);
      assert rainHistory.data == h;
      var amount := MeasureWindow();
      v := Some(Float(amount));
    }

    /** Newest minus oldest of the rain history, or 0.0 with fewer than two samples. */
    method MeasureWindow() returns (amount: real)
      ensures amount == WindowAmount(rainHistory.data)
    {
      amount := 0.0;
      if |rainHistory.data| >= 2 {
        var oldest, newest := rainHistory.GetOldestAndNewest();
        amount := Round1(newest.value.value - oldest.value.value);
      }
    }
  }

  // ---- Discovery of new entities ----

  /** The keys, in order, for which the discovery loop creates an entity. */
  function NewEntityKeys(known: seq<string>, keys: seq<string>): seq<string>
    decreases |keys|
  {
    if keys == [] then []
    else if keys[0] in known then NewEntityKeys(known, keys[1..])
    else [keys[0]] + NewEntityKeys(known + [keys[0]], keys[1..])
  }

  /** The outcome of one discovery pass: the keys appended, and whether the pass raised. */
  datatype Discovery = Discovery(created: seq<string>, failed: bool)

  /** The loop reads `sensor_id` of every key, known or not. */
  predicate Readable(data: map<string, EntityData>, key: string) {
    key in data && data[key].sensorId.Some?
  }

  /** A key that makes the loop raise when it is reached with `known` as the known keys. */
  predicate Blocks(data: map<string, EntityData>, known: seq<string>, key: string) {
    !Readable(data, key) || (key !in known && !Constructible(data, data[key].sensorId.value, key))
  }

  /**
   * The discovery loop over `keys` from the known keys `known`: each key's `sensor_id` is read;
   * for an unknown key the entity is constructed and the key appended. The first read or
   * construction that raises ends the pass; the keys appended before it stay appended.
   */
  function Discover(data: map<string, EntityData>, known: seq<string>, keys: seq<string>): Discovery
    decreases |keys|
  {
    if keys == [] then Discovery([], false)
    else
      var key := keys[0];
      if Blocks(data, known, key) then Discovery([], true)
      else if key in known then Discover(data, known, keys[1..])
      else
        var rest := Discover(data, known + [key], keys[1..]);
        Discovery([key] + rest.created, rest.failed)
  }

  /**
   * The discovery loop of `async_setup_entry` and `async_discover_new_entities`, over the keys
   * of `coordinator.data` in iteration order: one new entity for each key not yet in
   * `sensor_entity_list`, whose key is appended. `failed` reports that the pass raised.
   */
  method DiscoverNewEntities(c: DataCoordinator, keys: seq<string>)
    returns (created: seq<string>, entities: seq<SensorEntity>, failed: bool)
    requires forall k :: k in keys <==> k in c.data
    requires NoDuplicates(keys)
    modifies c`sensorEntityList
    ensures Discovery(created, failed) == Discover(c.data, old(c.sensorEntityList), keys)
    ensures c.sensorEntityList == old(c.sensorEntityList) + created
    ensures |entities| == |created| && forall i :: 0 <= i < |entities| ==> entities[i].entityId == created[i]
    ensures !failed ==> forall k :: k in c.data ==> k in c.sensorEntityList
  {
    var data := c.data;
    ghost var known := c.sensorEntityList;
    created, entities, failed := [], [], false;
    var i := 0;
    while i < |keys|
      invariant 0 <= i <= |keys|
      invariant c.data == data
      invariant c.sensorEntityList == known + created
      invariant EntityIds(entities) == created
      invariant !failed
      invariant Discover(data, known, keys) == Concat(created, Discover(data, c.sensorEntityList, keys[i..]))
    {
      var entityId := keys[i];
      DiscoverAdvance(data, known, keys, i, created, c.sensorEntityList);
      if !Readable(data, entityId) {
        failed := true;
        break;
      }
      var sensorId := data[entityId].sensorId.value;
      if entityId !in c.sensorEntityList {
        if !Constructible(data, sensorId, entityId) {
          failed := true;
          break;
        }
        var entity := AddEntity(c, sensorId, entityId);
        assert (entities + [entity])[..|entities|] == entities;
        entities := entities + [entity];
        created := created + [entityId];
      }
      i := i + 1;
    }
    if !failed {
      assert keys[i..] == [];
      DiscoverCompletes(data, known, keys);
      NewEntityKeysExactlyUnknown(known, keys);
    }
    EntityIdsAt(entities);
  }

  /** The keys of a sequence of entities, in order. */
  function EntityIds(entities: seq<SensorEntity>): (ids: seq<string>)
    ensures |ids| == |entities|
  {
    if entities == [] then []
    else EntityIds(entities[..|entities| - 1]) + [entities[|entities| - 1].entityId]
  }

  lemma {:induction false} EntityIdsAt(entities: seq<SensorEntity>)
    ensures forall i :: 0 <= i < |entities| ==> EntityIds(entities)[i] == entities[i].entityId
  {
    if entities != [] {
      EntityIdsAt(entities[..|entities| - 1]);
    }
  }

  /** Creates the entity for a new key and appends the key to `sensor_entity_list`. */
  method AddEntity(c: DataCoordinator, sensorId: string, entityId: string) returns (entity: SensorEntity)
    requires Constructible(c.data, sensorId, entityId)
    modifies c`sensorEntityList
    ensures entity.entityId == entityId && entity.sensorId == sensorId
    ensures c.sensorEntityList == old(c.sensorEntityList) + [entityId]
  {
    entity := new SensorEntity(c, sensorId, entityId);
    c.sensorEntityList := c.sensorEntityList + [entityId];
  }

  /** The keys appended before a pass, then those of the pass. */
  function Concat(before: seq<string>, r: Discovery): Discovery {
    Discovery(before + r.created, r.failed)
  }

  /** How the result of a whole pass follows from the pass over the keys from `i` on. */
  lemma DiscoverAdvance(data: map<string, EntityData>, known: seq<string>, keys: seq<string>,
                        i: nat, created: seq<string>, list: seq<string>)
    requires i < |keys|
    requires Discover(data, known, keys) == Concat(created, Discover(data, list, keys[i..]))
    ensures Blocks(data, list, keys[i]) ==> Discover(data, known, keys) == Discovery(created, true)
    ensures !Blocks(data, list, keys[i]) && keys[i] in list ==>
      Discover(data, known, keys) == Concat(created, Discover(data, list, keys[i + 1..]))
    ensures !Blocks(data, list, keys[i]) && keys[i] !in list ==>
      Discover(data, known, keys) == Concat(created + [keys[i]], Discover(data, list + [keys[i]], keys[i + 1..]))
  {
    DiscoverStep(data, list, keys[i..]);
    assert keys[i..][1..] == keys[i + 1..];
    var next := Discover(data, list + [keys[i]], keys[i + 1..]);
    assert created + ([keys[i]] + next.created) == (created + [keys[i]]) + next.created;
    assert created + [] == created;
  }

  /** One step of a pass, as the loop body takes it. */
  lemma DiscoverStep(data: map<string, EntityData>, known: seq<string>, keys: seq<string>)
    requires keys != []
    ensures Blocks(data, known, keys[0]) ==> Discover(data, known, keys) == Discovery([], true)
    ensures !Blocks(data, known, keys[0]) && keys[0] in known ==>
      Discover(data, known, keys) == Discover(data, known, keys[1..])
    ensures !Blocks(data, known, keys[0]) && keys[0] !in known ==>
      Discover(data, known, keys) == Concat([keys[0]], Discover(data, known + [keys[0]], keys[1..]))
  {
  }

  /**
   * A pass appends a prefix of the unknown keys in order, and all of them when it does not
   * raise.
   */
  lemma {:induction false} DiscoverCompletes(data: map<string, EntityData>, known: seq<string>, keys: seq<string>)
    ensures Discover(data, known, keys).created <= NewEntityKeys(known, keys)
    ensures !Discover(data, known, keys).failed ==> Discover(data, known, keys).created == NewEntityKeys(known, keys)
    decreases |keys|
  {
    if keys != [] && !Blocks(data, known, keys[0]) {
      if keys[0] in known {
        DiscoverCompletes(data, known, keys[1..]);
      } else {
        DiscoverCompletes(data, known + [keys[0]], keys[1..]);
      }
    }
  }

  /**
   * Over distinct keys, a pass raises exactly when some key has no `sensor_id`, or is unknown
   * and cannot be constructed.
   */
  lemma {:induction false} DiscoverFailsIff(data: map<string, EntityData>, known: seq<string>, keys: seq<string>)
    requires NoDuplicates(keys)
    ensures Discover(data, known, keys).failed <==> exists k :: k in keys && Blocks(data, known, k)
    decreases |keys|
  {
    if keys != [] {
      var key := keys[0];
      var rest := keys[1..];
      assert NoDuplicates(rest) by {
        forall i, j | 0 <= i < j < |rest|
          ensures rest[i] != rest[j]
        {
          assert rest[i] == keys[i + 1] && rest[j] == keys[j + 1];
        }
      }
      assert forall k :: k in keys <==> k == key || k in rest;
      if !Blocks(data, known, key) {
        if key in known {
          DiscoverFailsIff(data, known, rest);
        } else {
          DiscoverFailsIff(data, known + [key], rest);
          forall k | k in rest
            ensures Blocks(data, known + [key], k) <==> Blocks(data, known, k)
          {
            var j :| 0 <= j < |rest| && rest[j] == k;
            assert keys[j + 1] == k && keys[0] == key;
          }
        }
      }
    }
  }

  /** An entity is created exactly for the keys that are not known yet. */
  lemma {:induction false} NewEntityKeysExactlyUnknown(known: seq<string>, keys: seq<string>)
    ensures forall k :: k in NewEntityKeys(known, keys) <==> k in keys && k !in known
    decreases |keys|
  {
    if keys != [] {
      if keys[0] in known {
        NewEntityKeysExactlyUnknown(known, keys[1..]);
      } else {
        NewEntityKeysExactlyUnknown(known + [keys[0]], keys[1..]);
      }
    }
  }

  /** No key occurs twice; the keys of a map, listed in iteration order, are such a sequence. */
  ghost predicate NoDuplicates(s: seq<string>) {
    forall i, j :: 0 <= i < j < |s| ==> s[i] != s[j]
  }

  /** No entity is created twice: the new keys are distinct and none was known. */
  lemma {:induction false} NewEntityKeysDistinct(known: seq<string>, keys: seq<string>)
    ensures NoDuplicates(NewEntityKeys(known, keys))
    decreases |keys|
  {
    if keys != [] {
      if keys[0] in known {
        assert NewEntityKeys(known, keys) == NewEntityKeys(known, keys[1..]);
        NewEntityKeysDistinct(known, keys[1..]);
      } else {
        var rest := NewEntityKeys(known + [keys[0]], keys[1..]);
        NewEntityKeysDistinct(known + [keys[0]], keys[1..]);
        NewEntityKeysExactlyUnknown(known + [keys[0]], keys[1..]);
        assert keys[0] !in rest;
        var created := [keys[0]] + rest;
        assert NewEntityKeys(known, keys) == created;
        forall i, j | 0 <= i < j < |created|
          ensures created[i] != created[j]
        {
          assert created[j] == rest[j - 1];
          if i > 0 {
            assert created[i] == rest[i - 1];
          }
        }
      }
    }
  }

  /** Keys that are all known already create nothing. */
  lemma {:induction false} NewEntityKeysAllKnown(known: seq<string>, keys: seq<string>)
    requires forall k :: k in keys ==> k in known
    ensures NewEntityKeys(known, keys) == []
    decreases |keys|
  {
    if keys != [] {
      assert keys[0] in keys;
      NewEntityKeysAllKnown(known, keys[1..]);
    }
  }

  /** After a discovery every key is known, so discovering again over the same keys creates nothing. */
  lemma DiscoverTwiceCreatesNothing(known: seq<string>, keys: seq<string>)
    ensures NewEntityKeys(known + NewEntityKeys(known, keys), keys) == []
  {
    NewEntityKeysExactlyUnknown(known, keys);
    NewEntityKeysAllKnown(known + NewEntityKeys(known, keys), keys);
  }
}
