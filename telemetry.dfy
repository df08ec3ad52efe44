/** The readings the device posts and the weather sample fetched for them. */
module Telemetry {
  import opened Wrappers

  /** One device POST (app.py:135-152). Every field may be missing; the numeric ones are real numbers. */
  datatype Reading = Reading(
    inverterLoad: Option<real>,
    frequency: Option<real>,
    powerFactor: Option<real>,
    voltage: Option<real>,
    current: Option<real>,
    power: Option<real>,
    energy: Option<real>,
    solarVoltage: Option<real>,
    solarCurrent: Option<real>,
    solarPower: Option<real>,
    batteryPercentage: Option<real>,
    lightIntensity: Option<real>,
    batteryVoltage: Option<real>,
    token: Option<string>,
    latitude: Option<real>,
    longitude: Option<real>,
    deviceIP: Option<string>,
    roomEsp: Option<string>)

  /** The current-hour weather: four independently optional values (app.py:114-117). */
  datatype Weather = Weather(
    temperature: Option<real>,
    cloudCover: Option<real>,
    windSpeed: Option<real>,
    precipitation: Option<real>)

  /** Python truthiness of a numeric value: a missing value and zero are both false. */
  predicate Truthy(x: Option<real>) {
    x.Some? && x.value != 0.0
  }
}
