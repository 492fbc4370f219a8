/**
 * The older measurement entity of the root-level sensor.py: the id and type strings, the
 * station rule for the configuration link, the raw state, the name and the icon. This
 * variant has no staleness check, no rain rules and its own wind-direction table; the
 * lemmas at the end compare it with the entity of custom_components/a_tfa_me_1/sensor.py.
 */
module LegacySensor {
  import opened Wrappers
  import opened Text
  import opened Values
  import opened Coordinator
  import History
  import Sensor

  /** `format_string_tfa_id`: 'TFA.me XXX-XXX-XXX'. */
  function FormatTfaId(s: string): string {
    "TFA.me " + Upper(Prefix(s, 3)) + "-" + Upper(Slice(s, 3, 6)) + "-" + Upper(Drop(s, 6))
  }

  /** The older id text is the newer one in single-entity mode. */
  lemma FormatTfaIdAsSingleEntity(s: string, gatewayId: string)
    ensures FormatTfaId(s) == Sensor.FormatTfaId(s, gatewayId, false)
  {
  }

  /** `format_string_tfa_type`: "Station type XX" or "Sensor type XX"; None where `int` raises. */
  function FormatTfaType(s: string): Option<string> {
    match Sensor.IsStation(s)
    case None => None
    case Some(station) => Some((if station then "Station" else "Sensor") + " type " + Upper(Prefix(s, 2)))
  }

  /**
   * A device described as a station is exactly one that gets the configuration link
   * (`int(sensor_id[:2], 16) < 160`); for an id starting with two hex digits the type text
   * is always produced and ends with those two digits upper-cased.
   */
  lemma StationTypeIffConfigurationUrl(s: string)
    ensures FormatTfaType(s).Some? <==> Sensor.IsStation(s).Some?
    ensures FormatTfaType(s).Some? ==> (FormatTfaType(s).value[..7] == "Station" <==> Sensor.IsStation(s) == Some(true))
    ensures |s| >= 2 && IsHexDigit(s[0]) && IsHexDigit(s[1]) ==>
      FormatTfaType(s).Some? && FormatTfaType(s).value[|FormatTfaType(s).value| - 2..] == Upper(s[..2])
  {
    if FormatTfaType(s).Some? && !Sensor.IsStation(s).value {
      var r := FormatTfaType(s).value;
      assert r[0] == 'S' && r[1] == 'e';
    }
    if |s| >= 2 && IsHexDigit(s[0]) && IsHexDigit(s[1]) {
      Sensor.StationIffDigitFirst(s);
      assert Prefix(s, 2) == s[..2];
    }
  }

  /** `state`: the raw value of the record, None (`Null`) when the record or the key is missing. */
  function State(data: map<string, EntityData>, entityId: string): Scalar {
    if entityId in data && data[entityId].value.Some? then data[entityId].value.value else Null
  }

  /** `measurement_name`: the record's `measurement`, or None when the record or the field is missing. */
  function MeasurementName(data: map<string, EntityData>, entityId: string): (r: Option<string>)
    ensures r.None? <==> entityId !in data || data[entityId].measurement.None?
    ensures r.Some? ==> r == data[entityId].measurement
  {
    if entityId in data then data[entityId].measurement else None
  }

  /** `name`: as in the newer entity but without the "Co2" rewrite, and None when a key is missing. */
  function Name(data: map<string, EntityData>, entityId: string): (r: Option<string>)
    ensures r.None? <==> entityId !in data || data[entityId].sensorName.None? || data[entityId].measurement.None?
    ensures r.Some? ==> '_' !in r.value
  {
    if entityId !in data || data[entityId].sensorName.None? || data[entityId].measurement.None? then None
    else
      var str1 := data[entityId].sensorName.value + " " + Capitalize(data[entityId].measurement.value);
      ReplaceCharRemovesIt(ReplaceAll(str1, "Rssi", "RSSI"), "_", " ");
      Some(ReplaceAll(ReplaceAll(str1, "Rssi", "RSSI"), "_", " "))
  }

  /** `get_wind_direction_icon` of this file: North (0-1) shows the compass, then clockwise. */
  function WindDirectionIcon(value: real): (r: string)
    ensures r in Sensor.KnownIcons
  {
    if 0.0 <= value <= 1.0 then Sensor.Compass
    else if 2.0 <= value <= 3.0 then "mdi:arrow-top-right"
    else if 4.0 <= value <= 5.0 then "mdi:arrow-right"
    else if 6.0 <= value <= 7.0 then "mdi:arrow-bottom-right"
    else if 8.0 <= value <= 9.0 then "mdi:arrow-down"
    else if 10.0 <= value <= 11.0 then "mdi:arrow-bottom-left"
    else if 12.0 <= value <= 13.0 then "mdi:arrow-left"
    else if 14.0 <= value <= 15.0 then "mdi:arrow-top-left"
    else Sensor.Compass
  }

  /** `get_icon` of this file: the value is always a number here. */
  function GetIcon(measurementType: Option<string>, value: real): (r: string)
    ensures r in Sensor.KnownIcons
  {
    if measurementType == Some("temperature") || measurementType == Some("temperature_probe") then
      if value >= 25.0 then Sensor.ThermometerHigh
      else if value <= 0.0 then Sensor.ThermometerLow
      else Sensor.ThermometerDefault
    else if measurementType == Some("humidity") then
      if value >= 65.0 || value <= 30.0 then Sensor.HumidityAlert else Sensor.HumidityDefault
    else if measurementType == Some("co2") then Sensor.Co2Default
    else if measurementType == Some("barometric_pressure") then Sensor.PressureDefault
    else if measurementType == Some("rssi") then
      if value < 100.0 then Sensor.RssiWeak
      else if value < 150.0 then Sensor.RssiMiddle
      else if value < 220.0 then Sensor.RssiGood
      else Sensor.RssiStrong
    else if measurementType == Some("lowbatt") then
      if value == 1.0 then Sensor.BatteryLow else Sensor.BatteryFull
    else if measurementType == Some("wind_direction") then WindDirectionIcon(value)
    else if measurementType == Some("wind_gust") then Sensor.WindVariant
    else if measurementType == Some("wind_speed") then Sensor.WindDefault
    else if measurementType == Some("rain") then Sensor.RainModerate
    else Sensor.HelpIcon
  }

  /** `icon`: "mdi:help" when the state is not a number, otherwise the icon of the value. */
  function Icon(data: map<string, EntityData>, entityId: string): (r: string)
    ensures FloatOf(State(data, entityId)).None? <==> r == "mdi:help"
  {
    match FloatOf(State(data, entityId))
    case None => "mdi:help"
    case Some(v) => GetIcon(MeasurementName(data, entityId), v)
  }

  /** Apart from the wind direction, both files choose the same icon for a number. */
  lemma GetIconAgreesExceptWind(measurementType: Option<string>, value: real)
    requires measurementType != Some("wind_direction")
    ensures GetIcon(measurementType, value) == Sensor.GetIcon(measurementType, Some(value))
  {
  }

  /**
   * The newer wind table is this one turned half way round: a code shows what this table
   * shows for the opposite direction (eight codes on), except in the South bucket 8-9,
   * where the newer table has an up arrow and this one the compass for North.
   */
  lemma WindTablesOpposite(v: real)
    requires 0.0 <= v <= 15.0 && !(8.0 <= v <= 9.0)
    ensures Sensor.WindDirectionIcon(Some(v)) == WindDirectionIcon(if v < 8.0 then v + 8.0 else v - 8.0)
  {
  }

  lemma WindTablesDifferAtSouth(v: real)
    requires 8.0 <= v <= 9.0
    ensures Sensor.WindDirectionIcon(Some(v)) == "mdi:arrow-up" && WindDirectionIcon(v - 8.0) == Sensor.Compass
  {
  }

  /**
   * For a plain entity with a fresh timestamp and a value, the newer entity shows what this
   * one shows.
   */
  lemma NewValueIsOldStateWhenFresh(entityId: string, sensorId: string, data: map<string, EntityData>,
                                    baseline: Scalar, history: seq<History.Sample>, now: int)
    requires !Contains(entityId, "rain_rel") && !Contains(entityId, "rain_hour")
    requires Sensor.LastUpdate(data, entityId).Some?
    requires now - Sensor.LastUpdate(data, entityId).value <= Sensor.GetTimeout(sensorId)
    requires data[entityId].value.Some?
    ensures Sensor.Resolve(entityId, sensorId, data, baseline, history, now).value == Some(State(data, entityId))
  {
    Sensor.PlainValueIffFresh(entityId, sensorId, data, baseline, history, now);
  }
}
