/**
 * The merged record sent to the telemetry sink: the weather extraction of `fetch_weather`
 * (with `safe_first`, app.py:98-120) and the dict comprehension that drops `None` values
 * (app.py:168-199).
 */
module Payload {
  import opened Wrappers
  import opened Telemetry
  import opened AlertRules

  /**
   * A value of the merged record: a number, a text, or one of the alerts, which the source sends
   * as its message string (`BatteryMessage`, `SolarMessage`, `SunlightMessage`, `ChargingMessage`)
   * or, for the overload status, as a formatted string.
   */
  datatype Value =
    | Number(n: real)
    | Text(s: string)
    | Battery(battery: BatteryAlert)
    | Solar(solar: SolarAlert)
    | Sunlight(sunlight: SunlightAlert)
    | Charging(charging: ChargingAlert)
    | Status(status: OverloadStatus)

  /** The first element of a list, or nothing for a missing or empty list (app.py:98-100). */
  function SafeFirst<T>(lst: Option<seq<T>>): (r: Option<T>)
    ensures r.Some? <==> lst.Some? && |lst.value| > 0
    ensures r.Some? ==> r.value == lst.value[0]
  {
    if lst.Some? && |lst.value| > 0 then Some(lst.value[0]) else None
  }

  /** Putting an element in front of a list makes it the list's safe first element. */
  lemma SafeFirstOfCons<T>(x: T, rest: seq<T>)
    ensures SafeFirst(Some([x] + rest)) == Some(x)
  {
  }

  /** The forecast's `hourly` object: series by name; a series may be JSON `null`. */
  type Hourly = map<string, Option<seq<real>>>

  /** `hourly.get(name, [])`. */
  function Series(hourly: Hourly, name: string): Option<seq<real>> {
    if name in hourly then hourly[name] else Some([])
  }

  /**
   * The weather sample taken from a forecast response (app.py:113-120); `None` stands for any
   * failure of the request or of decoding it, which clears all four values.
   */
  function FetchWeather(response: Option<Hourly>): (w: Weather)
    ensures response.None? ==> w == Weather(None, None, None, None)
    ensures response.Some? ==>
      && w.temperature == SafeFirst(Series(response.value, "temperature_2m"))
      && w.cloudCover == SafeFirst(Series(response.value, "cloudcover"))
      && w.windSpeed == SafeFirst(Series(response.value, "windspeed_10m"))
      && w.precipitation == SafeFirst(Series(response.value, "precipitation"))
  {
    match response
    case None => Weather(None, None, None, None)
    case Some(hourly) =>
      Weather(
        SafeFirst(Series(hourly, "temperature_2m")),
        SafeFirst(Series(hourly, "cloudcover")),
        SafeFirst(Series(hourly, "windspeed_10m")),
        SafeFirst(Series(hourly, "precipitation")))
  }

  /** A response whose series all start with a value yields those values. */
  lemma FetchWeatherTakesCurrentHour(hourly: Hourly, t: real, c: real, ws: real, p: real)
    requires "temperature_2m" in hourly && hourly["temperature_2m"].Some? && |hourly["temperature_2m"].value| > 0 && hourly["temperature_2m"].value[0] == t
    requires "cloudcover" in hourly && hourly["cloudcover"].Some? && |hourly["cloudcover"].value| > 0 && hourly["cloudcover"].value[0] == c
    requires "windspeed_10m" in hourly && hourly["windspeed_10m"].Some? && |hourly["windspeed_10m"].value| > 0 && hourly["windspeed_10m"].value[0] == ws
    requires "precipitation" in hourly && hourly["precipitation"].Some? && |hourly["precipitation"].value| > 0 && hourly["precipitation"].value[0] == p
    ensures FetchWeather(Some(hourly)) == Weather(Some(t), Some(c), Some(ws), Some(p))
  {
  }

  /** The comprehension `{k: v for k, v in d.items() if v is not None}` (app.py:168-199). */
  function DropMissing<K(!new)>(d: map<K, Option<Value>>): (p: map<K, Value>)
    ensures forall k :: k in p <==> k in d && d[k].Some?
    ensures forall k :: k in p ==> p[k] == d[k].value
  {
    map k | k in d && d[k].Some? :: d[k].value
  }

  /** Every value of a dict, wrapped as present. */
  function Lift<K(!new)>(p: map<K, Value>): (d: map<K, Option<Value>>)
    ensures d.Keys == p.Keys
    ensures forall k :: k in d ==> d[k] == Some(p[k])
  {
    map k | k in p :: Some(p[k])
  }

  /** Dropping the missing values of a dict whose values are all present gives that dict back. */
  lemma DropMissingOfLift<K(!new)>(p: map<K, Value>)
    ensures DropMissing(Lift(p)) == p
  {
  }

  /** Dropping is idempotent: a dropped record has nothing more to drop. */
  lemma DropMissingIdempotent<K(!new)>(d: map<K, Option<Value>>)
    ensures DropMissing(Lift(DropMissing(d))) == DropMissing(d)
  {
  }

  function NumberOf(x: Option<real>): Option<Value> {
    if x.Some? then Some(Number(x.value)) else None
  }

  function TextOf(x: Option<string>): Option<Value> {
    if x.Some? then Some(Text(x.value)) else None
  }

  /** The 26 keys of the merged record, in the order of the dict literal at app.py:170-196. */
  datatype Key =
    | InverterLoad | Frequency | PowerFactor | Voltage | Current | Power | Energy
    | SolarVoltage | SolarCurrent | SolarPower | BatteryPercentage | LightIntensity | BatteryVoltage
    | Temperature | CloudPercent | WindSpeed | RainInMM
    | DeviceIP | Latitude | Longitude | RoomEsp
    | BatteryAlertKey | SolarAlertKey | SunlightAlertKey | ChargingAlertKey | OverloadStatusKey

  /** The key's name in the JSON object sent to the sink. */
  function Name(k: Key): string {
    match k
    case InverterLoad => "InverterLoad"
    case Frequency => "Frequency"
    case PowerFactor => "PowerFactor"
    case Voltage => "Voltage"
    case Current => "Current"
    case Power => "Power"
    case Energy => "Energy"
    case SolarVoltage => "SolarVoltage"
    case SolarCurrent => "SolarCurrent"
    case SolarPower => "SolarPower"
    case BatteryPercentage => "BatteryPercentage"
    case LightIntensity => "LightIntensity"
    case BatteryVoltage => "BatteryVoltage"
    case Temperature => "Temperature"
    case CloudPercent => "CloudPercent"
    case WindSpeed => "WindSpeed"
    case RainInMM => "RainInMM"
    case DeviceIP => "deviceIP"
    case Latitude => "latitude"
    case Longitude => "longitude"
    case RoomEsp => "RoomEsp"
    case BatteryAlertKey => "battery_alert"
    case SolarAlertKey => "solar_alert"
    case SunlightAlertKey => "sunlight_alert"
    case ChargingAlertKey => "charging_alert"
    case OverloadStatusKey => "overload_status"
  }
  /**
   * Distinct keys have distinct names, so a map over `Key` is the dict literal's JSON object:
   * no two entries collapse into one.
   */
  lemma NamesDistinct(k1: Key, k2: Key)
    requires Name(k1) == Name(k2)
    ensures k1 == k2
  {
  }


  const AllKeys: set<Key> := {
    InverterLoad, Frequency, PowerFactor, Voltage, Current, Power, Energy,
    SolarVoltage, SolarCurrent, SolarPower, BatteryPercentage, LightIntensity, BatteryVoltage,
    Temperature, CloudPercent, WindSpeed, RainInMM,
    DeviceIP, Latitude, Longitude, RoomEsp,
    BatteryAlertKey, SolarAlertKey, SunlightAlertKey, ChargingAlertKey, OverloadStatusKey
  }

  const WeatherKeys: set<Key> := {Temperature, CloudPercent, WindSpeed, RainInMM}

  /** The value of an alert key: the alert global of the same name, if set. */
  function AlertValue(a: Alerts, k: Key): Option<Value> {
    match k
    case BatteryAlertKey => if a.battery.Some? then Some(Battery(a.battery.value)) else None
    case SolarAlertKey => if a.solar.Some? then Some(Solar(a.solar.value)) else None
    case SunlightAlertKey => if a.sunlight.Some? then Some(Sunlight(a.sunlight.value)) else None
    case ChargingAlertKey => if a.charging.Some? then Some(Charging(a.charging.value)) else None
    case OverloadStatusKey => if a.overload.Some? then Some(Status(a.overload.value)) else None
    case _ => None
  }

  /** The value the dict literal of app.py:170-196 gives key `k`, before missing values are dropped. */
  function Field(r: Reading, w: Weather, a: Alerts, k: Key): Option<Value> {
    match k
    case InverterLoad => NumberOf(r.inverterLoad)
    case Frequency => NumberOf(r.frequency)
    case PowerFactor => NumberOf(r.powerFactor)
    case Voltage => NumberOf(r.voltage)
    case Current => NumberOf(r.current)
    case Power => NumberOf(r.power)
    case Energy => NumberOf(r.energy)
    case SolarVoltage => NumberOf(r.solarVoltage)
    case SolarCurrent => NumberOf(r.solarCurrent)
    case SolarPower => NumberOf(r.solarPower)
    case BatteryPercentage => NumberOf(r.batteryPercentage)
    case LightIntensity => NumberOf(r.lightIntensity)
    case BatteryVoltage => NumberOf(r.batteryVoltage)
    case Temperature => NumberOf(w.temperature)
    case CloudPercent => NumberOf(w.cloudCover)
    case WindSpeed => NumberOf(w.windSpeed)
    case RainInMM => NumberOf(w.precipitation)
    case DeviceIP => TextOf(r.deviceIP)
    case Latitude => NumberOf(r.latitude)
    case Longitude => NumberOf(r.longitude)
    case RoomEsp => TextOf(r.roomEsp)
    case BatteryAlertKey => AlertValue(a, BatteryAlertKey)
    case SolarAlertKey => AlertValue(a, SolarAlertKey)
    case SunlightAlertKey => AlertValue(a, SunlightAlertKey)
    case ChargingAlertKey => AlertValue(a, ChargingAlertKey)
    case OverloadStatusKey => AlertValue(a, OverloadStatusKey)
  }

  /** The dict literal itself: every key with its possibly missing value. */
  function Fields(r: Reading, w: Weather, a: Alerts): map<Key, Option<Value>> {
    map k | k in AllKeys :: Field(r, w, a, k)
  }

  /** The merged record stored as the latest payload and posted to the sink. */
  function Build(r: Reading, w: Weather, a: Alerts): map<Key, Value> {
    DropMissing(Fields(r, w, a))
  }

  /** Key by key: present in the record exactly when the dict literal gives it a value. */
  lemma BuildAt(r: Reading, w: Weather, a: Alerts, k: Key)
    ensures k in Build(r, w, a) <==> Field(r, w, a, k).Some?
    ensures k in Build(r, w, a) ==> Build(r, w, a)[k] == Field(r, w, a, k).value
  {
  }

  /**
   * An alert key is in the record exactly when that alert was raised, with the source's message;
   * the overload status is there exactly when it was computed.
   */
  lemma AlertKeysPresentExactlyWhenRaised(r: Reading, w: Weather, a: Alerts)
    ensures BatteryAlertKey in Build(r, w, a) <==> a.battery.Some?
    ensures SolarAlertKey in Build(r, w, a) <==> a.solar.Some?
    ensures SunlightAlertKey in Build(r, w, a) <==> a.sunlight.Some?
    ensures ChargingAlertKey in Build(r, w, a) <==> a.charging.Some?
    ensures OverloadStatusKey in Build(r, w, a) <==> a.overload.Some?
  {
    BuildAt(r, w, a, BatteryAlertKey);
    BuildAt(r, w, a, SolarAlertKey);
    BuildAt(r, w, a, SunlightAlertKey);
    BuildAt(r, w, a, ChargingAlertKey);
    BuildAt(r, w, a, OverloadStatusKey);
  }

  /** A raised alert is sent as that alert; the overload status as computed. */
  lemma AlertValuesAreTheAlerts(r: Reading, w: Weather, a: Alerts)
    ensures var p := Build(r, w, a);
      && (a.battery.Some? ==> p[BatteryAlertKey] == Battery(a.battery.value))
      && (a.solar.Some? ==> p[SolarAlertKey] == Solar(a.solar.value))
      && (a.sunlight.Some? ==> p[SunlightAlertKey] == Sunlight(a.sunlight.value))
      && (a.charging.Some? ==> p[ChargingAlertKey] == Charging(a.charging.value))
      && (a.overload.Some? ==> p[OverloadStatusKey] == Status(a.overload.value))
  {
    BuildAt(r, w, a, BatteryAlertKey);
    BuildAt(r, w, a, SolarAlertKey);
    BuildAt(r, w, a, SunlightAlertKey);
    BuildAt(r, w, a, ChargingAlertKey);
    BuildAt(r, w, a, OverloadStatusKey);
  }

  /** `k` is in the record exactly when `x` is known, and then holds that number unchanged. */
  predicate CarriesNumber(p: map<Key, Value>, k: Key, x: Option<real>) {
    (k in p <==> x.Some?) && (x.Some? ==> p[k] == Number(x.value))
  }

  /** `k` is in the record exactly when `x` is known, and then holds that text unchanged. */
  predicate CarriesText(p: map<Key, Value>, k: Key, x: Option<string>) {
    (k in p <==> x.Some?) && (x.Some? ==> p[k] == Text(x.value))
  }

  /** The seven inverter keys carry the reading's inverter values (app.py:171-177). */
  lemma InverterKeysCarryReading(r: Reading, w: Weather, a: Alerts)
    ensures var p := Build(r, w, a);
      && CarriesNumber(p, InverterLoad, r.inverterLoad)
      && CarriesNumber(p, Frequency, r.frequency)
      && CarriesNumber(p, PowerFactor, r.powerFactor)
      && CarriesNumber(p, Voltage, r.voltage)
      && CarriesNumber(p, Current, r.current)
      && CarriesNumber(p, Power, r.power)
      && CarriesNumber(p, Energy, r.energy)
  {
    BuildAt(r, w, a, InverterLoad);
    BuildAt(r, w, a, Frequency);
    BuildAt(r, w, a, PowerFactor);
    BuildAt(r, w, a, Voltage);
    BuildAt(r, w, a, Current);
    BuildAt(r, w, a, Power);
    BuildAt(r, w, a, Energy);
  }

  /** The six solar, battery and light keys carry the reading's values (app.py:178-183). */
  lemma SolarKeysCarryReading(r: Reading, w: Weather, a: Alerts)
    ensures var p := Build(r, w, a);
      && CarriesNumber(p, SolarVoltage, r.solarVoltage)
      && CarriesNumber(p, SolarCurrent, r.solarCurrent)
      && CarriesNumber(p, SolarPower, r.solarPower)
      && CarriesNumber(p, BatteryPercentage, r.batteryPercentage)
      && CarriesNumber(p, LightIntensity, r.lightIntensity)
      && CarriesNumber(p, BatteryVoltage, r.batteryVoltage)
  {
    BuildAt(r, w, a, SolarVoltage);
    BuildAt(r, w, a, SolarCurrent);
    BuildAt(r, w, a, SolarPower);
    BuildAt(r, w, a, BatteryPercentage);
    BuildAt(r, w, a, LightIntensity);
    BuildAt(r, w, a, BatteryVoltage);
  }

  /** The four weather keys carry the fetched weather (app.py:184-187). */
  lemma WeatherKeysCarryWeather(r: Reading, w: Weather, a: Alerts)
    ensures var p := Build(r, w, a);
      && CarriesNumber(p, Temperature, w.temperature)
      && CarriesNumber(p, CloudPercent, w.cloudCover)
      && CarriesNumber(p, WindSpeed, w.windSpeed)
      && CarriesNumber(p, RainInMM, w.precipitation)
  {
    BuildAt(r, w, a, Temperature);
    BuildAt(r, w, a, CloudPercent);
    BuildAt(r, w, a, WindSpeed);
    BuildAt(r, w, a, RainInMM);
  }

  /** The four device keys carry the reading's address, position and room (app.py:188-191). */
  lemma DeviceKeysCarryReading(r: Reading, w: Weather, a: Alerts)
    ensures var p := Build(r, w, a);
      && CarriesText(p, DeviceIP, r.deviceIP)
      && CarriesNumber(p, Latitude, r.latitude)
      && CarriesNumber(p, Longitude, r.longitude)
      && CarriesText(p, RoomEsp, r.roomEsp)
  {
    BuildAt(r, w, a, DeviceIP);
    BuildAt(r, w, a, Latitude);
    BuildAt(r, w, a, Longitude);
    BuildAt(r, w, a, RoomEsp);
  }

  /** A failed weather fetch leaves the sensor and alert fields in place and drops only weather. */
  lemma WeatherFailureDropsOnlyWeather(r: Reading, a: Alerts, hourly: Hourly)
    ensures var failed, fetched := Build(r, FetchWeather(None), a), Build(r, FetchWeather(Some(hourly)), a);
      && failed.Keys <= fetched.Keys
      && (forall k :: k in failed ==> failed[k] == fetched[k])
      && (forall k :: k in fetched && k !in failed ==> k in WeatherKeys)
  {
    var failed, fetched := Build(r, FetchWeather(None), a), Build(r, FetchWeather(Some(hourly)), a);
    forall k: Key
      ensures k in failed ==> k in fetched && failed[k] == fetched[k]
      ensures k in fetched && k !in failed ==> k in WeatherKeys
    {
      BuildAt(r, FetchWeather(None), a, k);
      BuildAt(r, FetchWeather(Some(hourly)), a, k);
    }
  }
}
