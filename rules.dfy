/**
 * The five alert rules of `generate_alerts` (app.py:19-92) as pure functions of the reading, the
 * remembered previous values and the time gap, and `Evaluation`, which runs them in the source's
 * order, including the two places where the source raises.
 */
module AlertRules {
  import opened Wrappers
  import opened Telemetry

  datatype BatteryAlert = Overcharge | CriticallyLow

  /** The four irradiance bands that have an expected power-ratio interval. */
  datatype Band = Strong | Moderate | Low | VeryLow

  datatype SolarAlert = Underperforming(band: Band) | UnexpectedPower

  /** The overload status; the source formats it as a string with the power and the load. */
  datatype OverloadStatus =
    | Overload(power: real, load: real)
    | HighLoadWarning(power: real, load: real)
    | LoadNormal(power: real)

  datatype SunlightAlert = SuddenDrop

  datatype ChargingAlert = NotCharging

  /** The five alert globals of app.py:14, cleared at the start of every evaluation. */
  datatype Alerts = Alerts(
    battery: Option<BatteryAlert>,
    solar: Option<SolarAlert>,
    overload: Option<OverloadStatus>,
    sunlight: Option<SunlightAlert>,
    charging: Option<ChargingAlert>)

  const NoAlerts := Alerts(None, None, None, None, None)

  /** The exceptions `generate_alerts` can raise on a missing input. */
  datatype Failure =
    | MissingLightIntensity  // `light_intensity / 120` on None (app.py:26)
    | MissingSolarPower      // `solar_power / 1000` on None (app.py:40)

  /**
   * An evaluation either runs to its end or raises; when it raises, the alert globals keep what
   * was assigned before the failing line.
   */
  datatype Outcome = Completed(alerts: Alerts) | Raised(partial: Alerts, failure: Failure)

  function AlertsOf(o: Outcome): Alerts {
    match o
    case Completed(a) => a
    case Raised(p, _) => p
  }

  function BatteryMessage(a: BatteryAlert): string {
    match a
    case Overcharge => "Battery fully charged (100%) - Overcharge risk!"
    case CriticallyLow => "Battery critically low (<15%) - Discharge risk!"
  }

  function SolarMessage(a: SolarAlert): string {
    match a
    case Underperforming(Strong) => "Sunlight strong but solar panel underperforming (900-1200 W/m²)"
    case Underperforming(Moderate) => "Sunlight moderate but solar panel underperforming (600-900 W/m²)"
    case Underperforming(Low) => "Sunlight low but solar panel underperforming (350-600 W/m²)"
    case Underperforming(VeryLow) => "Sunlight very low but solar panel underperforming (150-350 W/m²)"
    case UnexpectedPower => "Unexpected power generated in very low sunlight (<150 W/m²)"
  }

  const SunlightMessage := "Sudden drop in sunlight detected!"

  const ChargingMessage := "Solar generating power but battery not charging!"

  /** The battery message names its alert: distinct alerts are sent as distinct strings. */
  lemma BatteryMessageIdentifiesAlert(a1: BatteryAlert, a2: BatteryAlert)
    requires BatteryMessage(a1) == BatteryMessage(a2)
    ensures a1 == a2
  {
  }

  /** The solar message names its alert, the band included. */
  lemma SolarMessageIdentifiesAlert(a1: SolarAlert, a2: SolarAlert)
    requires SolarMessage(a1) == SolarMessage(a2)
    ensures a1 == a2
  {
  }

  /** No two of the alert messages coincide, so the sink can tell every alert apart by its text. */
  lemma MessagesDistinct(b: BatteryAlert, s: SolarAlert)
    ensures BatteryMessage(b) != SolarMessage(s)
    ensures BatteryMessage(b) != SunlightMessage && BatteryMessage(b) != ChargingMessage
    ensures SolarMessage(s) != SunlightMessage && SolarMessage(s) != ChargingMessage
    ensures SunlightMessage != ChargingMessage
  {
  }

  /** The irradiance estimate in W/m² derived from the light sensor (app.py:26 and app.py:165). */
  function Irradiance(lightIntensity: real): (irr: real)
    ensures irr * 120.0 == lightIntensity
    ensures irr >= 0.0 <==> lightIntensity >= 0.0
  {
    lightIntensity / 120.0
  }

  // ----- 1. Battery overcharge / low -----

  function BatteryRule(percentage: Option<real>): (a: Option<BatteryAlert>)
    ensures a == Some(Overcharge) <==> percentage.Some? && percentage.value >= 100.0
    ensures a == Some(CriticallyLow) <==> percentage.Some? && percentage.value < 15.0
    ensures a.None? <==> percentage.None? || 15.0 <= percentage.value < 100.0
  {
    if percentage.Some? then
      if percentage.value >= 100.0 then Some(Overcharge)
      else if percentage.value < 15.0 then Some(CriticallyLow)
      else None
    else None
  }

  // ----- 2. Solar panel underperformance -----

  /** Reference definition of the bands, independent of the if/elif chain: which band holds `irr`. */
  predicate InBand(irr: real, b: Band) {
    match b
    case Strong => 900.0 <= irr <= 1200.0
    case Moderate => 600.0 <= irr < 900.0
    case Low => 350.0 <= irr < 600.0
    case VeryLow => 150.0 <= irr < 350.0
  }

  /** The closed interval of power ratios expected in band `b`. */
  function ExpectedLow(b: Band): real {
    match b
    case Strong => 0.31
    case Moderate => 0.22
    case Low => 0.14
    case VeryLow => 0.05
  }

  function ExpectedHigh(b: Band): real {
    match b
    case Strong => 0.37
    case Moderate => 0.30
    case Low => 0.22
    case VeryLow => 0.14
  }

  /**
   * The if/elif chain of app.py:42-57 over the irradiance and the ratio `solar_power / 1000`.
   * Its result is the verdict of the band that holds `irr`: an alert exactly when the ratio lies
   * outside that band's interval, nothing above 1200, and below 150 an alert exactly when the
   * ratio exceeds 0.05.
   */
  function SolarRule(irr: real, ratio: real): (a: Option<SolarAlert>)
    ensures forall b :: InBand(irr, b) ==>
      (a.Some? <==> !(ExpectedLow(b) <= ratio <= ExpectedHigh(b))) &&
      (a.Some? ==> a.value == Underperforming(b))
    ensures irr < 150.0 ==> (a.Some? <==> ratio > 0.05) && (a.Some? ==> a.value == UnexpectedPower)
    ensures irr > 1200.0 ==> a.None?
  {
    if 900.0 <= irr <= 1200.0 && !(0.31 <= ratio <= 0.37) then Some(Underperforming(Strong))
    else if 600.0 <= irr < 900.0 && !(0.22 <= ratio <= 0.30) then Some(Underperforming(Moderate))
    else if 350.0 <= irr < 600.0 && !(0.14 <= ratio <= 0.22) then Some(Underperforming(Low))
    else if 150.0 <= irr < 350.0 && !(0.05 <= ratio <= 0.14) then Some(Underperforming(VeryLow))
    else if irr < 150.0 && ratio > 0.05 then Some(UnexpectedPower)
    else None
  }

  /** The bands are disjoint, so the order of the chain never decides between two bands. */
  lemma BandsDisjoint(irr: real, b1: Band, b2: Band)
    requires InBand(irr, b1) && InBand(irr, b2)
    ensures b1 == b2
  {
  }

  /**
   * The shared boundaries 0.14 and 0.22 are accepted by both adjoining bands, at every irradiance
   * of either band.
   */
  lemma SharedBoundariesAccepted(irr: real)
    ensures InBand(irr, Low) || InBand(irr, VeryLow) ==> SolarRule(irr, 0.14).None?
    ensures InBand(irr, Moderate) || InBand(irr, Low) ==> SolarRule(irr, 0.22).None?
  {
  }

  // ----- 3. Inverter overload -----

  /** The three-way status of app.py:60-71; `inverter_load * 1.00` is the load itself. */
  function OverloadRule(power: Option<real>, load: Option<real>): (s: Option<OverloadStatus>)
    ensures s.Some? <==> power.Some? && load.Some?
    ensures s.Some? ==> s.value.power == power.value
    ensures s.Some? ==> (s.value.Overload? <==> power.value > load.value)
    ensures s.Some? ==> (s.value.HighLoadWarning? <==> load.value * 0.90 < power.value <= load.value)
    ensures s.Some? ==> (s.value.LoadNormal? <==> power.value <= load.value && power.value <= load.value * 0.90)
    ensures s.Some? && !s.value.LoadNormal? ==> s.value.load == load.value
  {
    if power.Some? && load.Some? then
      var warningLimit := load.value * 0.90;
      var overloadLimit := load.value * 1.00;
      if power.value > overloadLimit then Some(Overload(power.value, load.value))
      else if power.value > warningLimit then Some(HighLoadWarning(power.value, load.value))
      else Some(LoadNormal(power.value))
    else None
  }

  // ----- 4. Sudden drop in sunlight -----

  /**
   * app.py:74-78. The gap is tested by truthiness, so only a gap of exactly zero suppresses the
   * rule; a negative gap does not.
   */
  function SunlightRule(irr: real, prevIrradiance: Option<real>, gap: real): (a: Option<SunlightAlert>)
    ensures a.Some? <==>
      prevIrradiance.Some? && gap != 0.0 && (irr - prevIrradiance.value) / gap < -0.1
    ensures prevIrradiance.None? || gap == 0.0 ==> a.None?
  {
    if prevIrradiance.Some? && gap != 0.0 then
      var lightSlope := (irr - prevIrradiance.value) / gap;
      if lightSlope < -0.1 then Some(SuddenDrop) else None
    else None
  }

  // ----- 5. Solar power generated but battery not charging -----

  /**
   * app.py:81-92. Solar voltage and current are tested by truthiness, so zero counts as missing.
   * Whenever the solar voltage is present, line 40 has already raised unless the solar power is
   * present too; that is this function's precondition.
   */
  function ChargingRule(r: Reading, prevBattery: Option<real>, gap: real): (a: Option<ChargingAlert>)
    requires r.solarVoltage.Some? ==> r.solarPower.Some?
    ensures a.Some? <==>
      Truthy(r.solarVoltage) && Truthy(r.solarCurrent) &&
      r.batteryPercentage.Some? && prevBattery.Some? && gap != 0.0 &&
      r.solarPower.value > 0.0 &&
      (r.batteryPercentage.value - prevBattery.value) / gap < 0.05
    ensures prevBattery.None? || gap == 0.0 || !Truthy(r.solarVoltage) ==> a.None?
  {
    if Truthy(r.solarVoltage) && Truthy(r.solarCurrent)
       && r.batteryPercentage.Some? && prevBattery.Some? && gap != 0.0
    then
      if r.solarPower.value > 0.0 then
        var batterySlope := (r.batteryPercentage.value - prevBattery.value) / gap;
        if batterySlope < 0.05 then Some(NotCharging) else None
      else None
    else None
  }

  // ----- The whole evaluation -----

  /** The inputs without which `generate_alerts` raises. */
  predicate Completes(r: Reading) {
    r.lightIntensity.Some? && (r.solarVoltage.Some? ==> r.solarPower.Some?)
  }

  /**
   * `generate_alerts` with the time gap as a parameter. The alerts are cleared first (app.py:25);
   * a missing light intensity raises before any rule runs, and a missing solar power raises in
   * rule 2, after the battery alert has been set. The guard `irradiance is not None`
   * (app.py:39 and app.py:74) always holds once line 26 has passed.
   */
  function Evaluation(r: Reading, prevBattery: Option<real>, prevIrradiance: Option<real>, gap: real): (o: Outcome)
    ensures o.Raised? <==> !Completes(r)
    ensures o.Raised? ==> o.failure == (if r.lightIntensity.None? then MissingLightIntensity else MissingSolarPower)
    ensures o.Raised? ==> o.partial == NoAlerts.(battery := o.partial.battery)
    ensures o.Raised? && r.lightIntensity.None? ==> o.partial.battery.None?
  {
    if r.lightIntensity.None? then Raised(NoAlerts, MissingLightIntensity)
    else
      var irradiance := Irradiance(r.lightIntensity.value);
      var battery := BatteryRule(r.batteryPercentage);
      if r.solarVoltage.Some? && r.solarPower.None? then
        Raised(NoAlerts.(battery := battery), MissingSolarPower)
      else
        var solar := if r.solarVoltage.Some? then SolarRule(irradiance, r.solarPower.value / 1000.0) else None;
        Completed(Alerts(
          battery,
          solar,
          OverloadRule(r.power, r.inverterLoad),
          SunlightRule(irradiance, prevIrradiance, gap),
          ChargingRule(r, prevBattery, gap)))
  }

  /** A completed evaluation's alerts are those of the five rules, each on its own inputs. */
  lemma CompletedAlertsAreTheRules(r: Reading, prevBattery: Option<real>, prevIrradiance: Option<real>, gap: real)
    requires Completes(r)
    ensures var a := AlertsOf(Evaluation(r, prevBattery, prevIrradiance, gap));
      var irr := Irradiance(r.lightIntensity.value);
      && a.battery == BatteryRule(r.batteryPercentage)
      && a.solar == (if r.solarVoltage.Some? then SolarRule(irr, r.solarPower.value / 1000.0) else None)
      && a.overload == OverloadRule(r.power, r.inverterLoad)
      && a.sunlight == SunlightRule(irr, prevIrradiance, gap)
      && a.charging == ChargingRule(r, prevBattery, gap)
  {
  }

  /** Without a solar voltage there is never a solar alert, whether or not the evaluation completes. */
  lemma NoSolarVoltageNoSolarAlert(r: Reading, prevBattery: Option<real>, prevIrradiance: Option<real>, gap: real)
    requires r.solarVoltage.None?
    ensures AlertsOf(Evaluation(r, prevBattery, prevIrradiance, gap)).solar.None?
  {
  }

  /** Irradiance above 1200 W/m² matches no band and never yields a solar alert. */
  lemma AboveStrongBandNoSolarAlert(r: Reading, prevBattery: Option<real>, prevIrradiance: Option<real>, gap: real)
    requires r.lightIntensity.Some? && Irradiance(r.lightIntensity.value) > 1200.0
    ensures AlertsOf(Evaluation(r, prevBattery, prevIrradiance, gap)).solar.None?
  {
  }

  /**
   * Without a remembered baseline (the first call) neither slope rule fires, and neither does
   * a zero gap.
   */
  lemma NoBaselineNoSlopeAlerts(r: Reading, prevBattery: Option<real>, prevIrradiance: Option<real>, gap: real)
    requires (prevBattery.None? && prevIrradiance.None?) || gap == 0.0
    ensures AlertsOf(Evaluation(r, prevBattery, prevIrradiance, gap)).sunlight.None?
    ensures AlertsOf(Evaluation(r, prevBattery, prevIrradiance, gap)).charging.None?
  {
  }

  /** The remembered values influence only the two slope rules. */
  lemma PreviousValuesOnlyAffectSlopeRules(r: Reading, b1: Option<real>, i1: Option<real>, b2: Option<real>, i2: Option<real>, gap: real)
    ensures var a1, a2 := AlertsOf(Evaluation(r, b1, i1, gap)), AlertsOf(Evaluation(r, b2, i2, gap));
      a1.battery == a2.battery && a1.solar == a2.solar && a1.overload == a2.overload
    ensures Evaluation(r, b1, i1, gap).Raised? == Evaluation(r, b2, i2, gap).Raised?
  {
  }

  /**
   * The band order is a chain: at 950 W/m² with 250 W (ratio 0.25, inside the moderate band's
   * interval) the strong band's verdict is the one reported.
   */
  lemma StrongBandReportedAt950(r: Reading)
    requires r.lightIntensity == Some(950.0 * 120.0) && r.solarVoltage.Some? && r.solarPower == Some(250.0)
    ensures AlertsOf(Evaluation(r, None, None, 0.0)).solar == Some(Underperforming(Strong))
  {
  }

  /** A negative gap does not suppress the sunlight rule: rising light over a negative gap alerts. */
  lemma NegativeGapStillAlerts()
    ensures SunlightRule(100.0, Some(0.0), -1.0) == Some(SuddenDrop)
  {
  }
}
