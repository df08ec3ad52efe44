/**
 * The stateful part of app.py: the module-level globals that `generate_alerts` and
 * `receive_data` assign, held as the fields of one `Monitor`, and the specification of how the
 * remembered values evolve over a run of requests.
 */
module Engine {
  import opened Wrappers
  import opened Telemetry
  import opened AlertRules
  import Payload
  import Clock

  /** The values remembered between evaluations (app.py:11-12). */
  datatype EngineState = EngineState(prevBattery: Option<real>, prevIrradiance: Option<real>)

  const Initial := EngineState(None, None)

  /** What the evaluation of `r` leaves behind when it completes (app.py:164-165). */
  function Remembered(r: Reading): EngineState
    requires r.lightIntensity.Some?
  {
    EngineState(r.batteryPercentage, Some(Irradiance(r.lightIntensity.value)))
  }

  /**
   * One request's effect on the remembered values: overwritten after a completed evaluation,
   * whatever alerts fired, and untouched when `generate_alerts` raised, since lines 164-165 are
   * then never reached.
   */
  function Step(s: EngineState, r: Reading, gap: real): (t: EngineState)
    ensures Completes(r) ==> t.prevBattery == r.batteryPercentage
    ensures Completes(r) ==> t.prevIrradiance.Some? && t.prevIrradiance.value * 120.0 == r.lightIntensity.value
    ensures !Completes(r) ==> t == s
  {
    match Evaluation(r, s.prevBattery, s.prevIrradiance, gap)
    case Completed(_) => Remembered(r)
    case Raised(_, _) => s
  }

  /** The remembered values after a run of requests, each with its time gap. */
  function Run(s: EngineState, requests: seq<(Reading, real)>): EngineState {
    if requests == [] then s
    else
      var n := |requests| - 1;
      Step(Run(s, requests[..n]), requests[n].0, requests[n].1)
  }

  /** A run in which no request completes leaves the remembered values as they started. */
  lemma {:induction false} RunWithoutCompletionKeepsState(s: EngineState, requests: seq<(Reading, real)>)
    requires forall i :: 0 <= i < |requests| ==> !Completes(requests[i].0)
    ensures Run(s, requests) == s
  {
    if requests != [] {
      var n := |requests| - 1;
      var prefix := requests[..n];
      assert forall i :: 0 <= i < n ==> prefix[i] == requests[i];
      RunWithoutCompletionKeepsState(s, prefix);
      assert Run(s, requests) == Step(Run(s, prefix), requests[n].0, requests[n].1);
    }
  }

  /**
   * After a run, the remembered values are those of the last request that completed: the
   * requests after it change nothing.
   */
  lemma {:induction false} RunRemembersLastCompleted(s: EngineState, requests: seq<(Reading, real)>, j: nat)
    requires j < |requests| && Completes(requests[j].0)
    requires forall i :: j < i < |requests| ==> !Completes(requests[i].0)
    ensures Run(s, requests) == Remembered(requests[j].0)
  {
    var n := |requests| - 1;
    var prefix := requests[..n];
    assert Run(s, requests) == Step(Run(s, prefix), requests[n].0, requests[n].1);
    if j < n {
      assert forall i :: 0 <= i < n ==> prefix[i] == requests[i];
      RunRemembersLastCompleted(s, prefix, j);
    }
  }

  /**
   * Until some request completes, there is no baseline: neither slope alert can fire, however
   * many requests failed before.
   */
  lemma NoSlopeAlertBeforeFirstCompletedRequest(requests: seq<(Reading, real)>, r: Reading, gap: real)
    requires forall i :: 0 <= i < |requests| ==> !Completes(requests[i].0)
    ensures var s := Run(Initial, requests);
      var a := AlertsOf(Evaluation(r, s.prevBattery, s.prevIrradiance, gap));
      a.sunlight.None? && a.charging.None?
  {
    RunWithoutCompletionKeepsState(Initial, requests);
    NoBaselineNoSlopeAlerts(r, None, None, gap);
  }

  /**
   * With the corrected clock the first request's gap is zero, so neither slope rule fires on it,
   * whatever values are remembered.
   */
  lemma FirstRequestNoSlopeAlerts(r: Reading, prevBattery: Option<real>, prevIrradiance: Option<real>, now: real)
    ensures var a := AlertsOf(Evaluation(r, prevBattery, prevIrradiance, Clock.Timegap(None, now)));
      a.sunlight.None? && a.charging.None?
  {
    NoBaselineNoSlopeAlerts(r, prevBattery, prevIrradiance, Clock.Timegap(None, now));
  }

  /** Why a request gets the 400 reply of the `except` at app.py:219-221. */
  datatype RequestError = EvaluationFailed(failure: Failure) | SinkUnreachable

  /** The module-level state of app.py that the alert engine and the request handler assign. */
  class Monitor {
    var prevBatteryPercent: Option<real>
    var prevIrradiance: Option<real>
    var prevTime: Option<real>
    var batteryAlert: Option<BatteryAlert>
    var solarAlert: Option<SolarAlert>
    var overloadStatus: Option<OverloadStatus>
    var sunlightAlert: Option<SunlightAlert>
    var chargingAlert: Option<ChargingAlert>
    /** The latest merged record, read back by the home route. */
    var payload: map<Payload.Key, Payload.Value>

    function State(): EngineState
      reads this
    {
      EngineState(prevBatteryPercent, prevIrradiance)
    }

    function AlertRecord(): Alerts
      reads this
    {
      Alerts(batteryAlert, solarAlert, overloadStatus, sunlightAlert, chargingAlert)
    }

    /** The globals at process start (app.py:8-15). */
    constructor ()
      ensures State() == Initial && prevTime.None?
      ensures AlertRecord() == NoAlerts && payload == map[]
    {
      prevBatteryPercent, prevIrradiance, prevTime := None, None, None;
      batteryAlert, solarAlert, overloadStatus, sunlightAlert, chargingAlert := None, None, None, None, None;
      payload := map[];
    }

    /**
     * `generate_alerts` (app.py:19-92) with the time gap as a parameter: clears the five alert
     * globals, then runs the rules in order, and stops with an error where the source raises.
     */
    method GenerateAlerts(r: Reading, timegap: real) returns (res: Result<Alerts, Failure>)
      modifies this`batteryAlert, this`solarAlert, this`overloadStatus, this`sunlightAlert, this`chargingAlert
      ensures AlertRecord() == AlertsOf(Evaluation(r, prevBatteryPercent, prevIrradiance, timegap))
      ensures res.Ok? <==> Completes(r)
      ensures res.Ok? ==> res.value == AlertRecord()
      ensures res.Err? ==> res.error == Evaluation(r, prevBatteryPercent, prevIrradiance, timegap).failure
    {
      batteryAlert, solarAlert, overloadStatus, sunlightAlert, chargingAlert := None, None, None, None, None;
      if r.lightIntensity.None? {
        return Err(MissingLightIntensity);
      }
      var irradiance := Irradiance(r.lightIntensity.value);
      CheckBattery(r.batteryPercentage);
      if r.solarVoltage.Some? {
        if r.solarPower.None? {
          return Err(MissingSolarPower);
        }
        CheckSolar(irradiance, r.solarPower.value);
      }
      CheckOverload(r.power, r.inverterLoad);
      CheckSunlight(irradiance, timegap);
      CheckCharging(r, timegap);
      CompletedAlertsAreTheRules(r, prevBatteryPercent, prevIrradiance, timegap);
      return Ok(AlertRecord());
    }

    // Each rule below starts from its alert cleared (app.py:25) and sets it or leaves it unset.

    /** Rule 1, battery overcharge / low (app.py:32-36). */
    method CheckBattery(percentage: Option<real>)
      requires batteryAlert.None?
      modifies this`batteryAlert
      ensures batteryAlert == BatteryRule(percentage)
    {
      if percentage.Some? {
        if percentage.value >= 100.0 {
          batteryAlert := Some(Overcharge);
        } else if percentage.value < 15.0 {
          batteryAlert := Some(CriticallyLow);
        }
      }
    }

    /** Rule 2, solar panel underperformance (app.py:40-57), once the solar power is known. */
    method CheckSolar(irradiance: real, solarPower: real)
      requires solarAlert.None?
      modifies this`solarAlert
      ensures solarAlert == SolarRule(irradiance, solarPower / 1000.0)
    {
      var solarPowerCalc := solarPower / 1000.0;
      if 900.0 <= irradiance <= 1200.0 && !(0.31 <= solarPowerCalc <= 0.37) {
        solarAlert := Some(Underperforming(Strong));
      } else if 600.0 <= irradiance < 900.0 && !(0.22 <= solarPowerCalc <= 0.30) {
        solarAlert := Some(Underperforming(Moderate));
      } else if 350.0 <= irradiance < 600.0 && !(0.14 <= solarPowerCalc <= 0.22) {
        solarAlert := Some(Underperforming(Low));
      } else if 150.0 <= irradiance < 350.0 && !(0.05 <= solarPowerCalc <= 0.14) {
        solarAlert := Some(Underperforming(VeryLow));
      } else if irradiance < 150.0 && solarPowerCalc > 0.05 {
        solarAlert := Some(UnexpectedPower);
      }
    }

    /** Rule 3, inverter overload (app.py:60-71). */
    method CheckOverload(power: Option<real>, load: Option<real>)
      requires overloadStatus.None?
      modifies this`overloadStatus
      ensures overloadStatus == OverloadRule(power, load)
    {
      if power.Some? && load.Some? {
        var warningLimit := load.value * 0.90;
        var overloadLimit := load.value * 1.00;
        if power.value > overloadLimit {
          overloadStatus := Some(Overload(power.value, load.value));
        } else if power.value > warningLimit {
          overloadStatus := Some(HighLoadWarning(power.value, load.value));
        } else {
          overloadStatus := Some(LoadNormal(power.value));
        }
      }
    }

    /** Rule 4, sudden drop in sunlight (app.py:74-78), against the remembered irradiance. */
    method CheckSunlight(irradiance: real, timegap: real)
      requires sunlightAlert.None?
      modifies this`sunlightAlert
      ensures sunlightAlert == SunlightRule(irradiance, prevIrradiance, timegap)
    {
      if prevIrradiance.Some? && timegap != 0.0 {
        var lightSlope := (irradiance - prevIrradiance.value) / timegap;
        if lightSlope < -0.1 {
          sunlightAlert := Some(SuddenDrop);
        }
      }
    }

    /**
     * Rule 5, solar power generated but battery not charging (app.py:81-92), against the
     * remembered battery percentage.
     */
    method CheckCharging(r: Reading, timegap: real)
      requires r.solarVoltage.Some? ==> r.solarPower.Some?
      requires chargingAlert.None?
      modifies this`chargingAlert
      ensures chargingAlert == ChargingRule(r, prevBatteryPercent, timegap)
    {
      if Truthy(r.solarVoltage) && Truthy(r.solarCurrent)
         && r.batteryPercentage.Some? && prevBatteryPercent.Some? && timegap != 0.0
      {
        if r.solarPower.value > 0.0 {
          var batterySlope := (r.batteryPercentage.value - prevBatteryPercent.value) / timegap;
          if batterySlope < 0.05 {
            chargingAlert := Some(NotCharging);
          }
        }
      }
    }

    /**
     * One evaluation as `receive_data` runs it (app.py:161-165): the alerts, then the remembered
     * values overwritten with the current reading's, whether or not any alert fired. When the
     * evaluation raises, the remembered values stay as they were.
     */
    method Evaluate(r: Reading, timegap: real) returns (res: Result<Alerts, Failure>)
      modifies this`batteryAlert, this`solarAlert, this`overloadStatus, this`sunlightAlert, this`chargingAlert
      modifies this`prevBatteryPercent, this`prevIrradiance
      ensures AlertRecord() == AlertsOf(Evaluation(r, old(prevBatteryPercent), old(prevIrradiance), timegap))
      ensures res.Ok? <==> Completes(r)
      ensures res.Ok? ==> res.value == AlertRecord()
      ensures res.Err? ==> res.error == Evaluation(r, old(prevBatteryPercent), old(prevIrradiance), timegap).failure
      ensures State() == Step(old(State()), r, timegap)
      ensures res.Ok? ==> prevBatteryPercent == r.batteryPercentage
      ensures res.Ok? ==> prevIrradiance == Some(Irradiance(r.lightIntensity.value))
      ensures res.Err? ==> unchanged(this`prevBatteryPercent, this`prevIrradiance)
    {
      res := GenerateAlerts(r, timegap);
      if res.Ok? {
        prevBatteryPercent := r.batteryPercentage;
        prevIrradiance := Some(Irradiance(r.lightIntensity.value));
      }
    }

    /**
     * `receive_data` without the HTTP plumbing (app.py:154-205), with the clock corrected: the
     * gap since the stored time, then the stored time, the weather extraction from the forecast
     * response, the evaluation, the merged record, and the post to the sink. `delivered` says
     * whether `requests.post` (app.py:205) returned; when it raises, the remembered values and
     * the stored record have already been updated, yet the reply is the 400 one.
     */
    method Receive(r: Reading, forecast: Option<Payload.Hourly>, now: real, delivered: bool)
      returns (res: Result<map<Payload.Key, Payload.Value>, RequestError>)
      modifies this
      ensures prevTime == Some(now)
      ensures var gap := Clock.Timegap(old(prevTime), now);
        && AlertRecord() == AlertsOf(Evaluation(r, old(prevBatteryPercent), old(prevIrradiance), gap))
        && State() == Step(old(State()), r, gap)
        && (!Completes(r) ==>
              res == Err(EvaluationFailed(Evaluation(r, old(prevBatteryPercent), old(prevIrradiance), gap).failure)))
      ensures Completes(r) ==> payload == Payload.Build(r, Payload.FetchWeather(forecast), AlertRecord())
      ensures !Completes(r) ==> payload == old(payload)
      ensures res.Ok? <==> Completes(r) && delivered
      ensures res.Ok? ==> res.value == payload
      ensures Completes(r) && !delivered ==> res == Err(SinkUnreachable)
    {
      var timegap := Clock.Timegap(prevTime, now);
      prevTime := Clock.StoredTimeAfterRequest(prevTime, now);
      var weather := Payload.FetchWeather(forecast);
      var alerts := Evaluate(r, timegap);
      if alerts.Err? {
        return Err(EvaluationFailed(alerts.error));
      }
      payload := Payload.Build(r, weather, AlertRecord());
      if !delivered {
        return Err(SinkUnreachable);
      }
      return Ok(payload);
    }
  }
}
