/**
 * The sensor pages: the Low/High/Normal status shown for each latest reading,
 * the range check that sends out-of-range alerts, and the input checks of the
 * three calibration forms in front of the sensor client.
 */
module SensorPages {
  import opened Common
  import opened SettingsStore
  import opened Notifications
  import SensorManager

  datatype Status = Low | High | Normal

  /** The latest stored reading of each sensor, if there is one. */
  datatype Latest = Latest(ph: Option<real>, ec: Option<real>, temp: Option<real>)

  /**
   * A target bound as `Settings.get(key)` returns it, ready to be compared with a
   * float: `None` when the comparison raises (no such setting, or a text).
   */
  function Bound(values: map<string, Value>, key: string): (r: Option<real>)
    ensures key !in values ==> r.None?
    ensures key in values && values[key].Num? ==> r == Some(values[key].n)
  {
    if key !in values then None else NumSetting(values, key, 0.0)
  }

  /**
   * The status of one reading on the overview page: Normal without a reading;
   * otherwise `value < min` is tested first and `value > max` only after it.
   * `None` when a comparison raises.
   */
  function StatusOf(reading: Option<real>, min: Option<real>, max: Option<real>): Option<Status>
  {
    if reading.None? then Some(Normal)
    else if min.None? then None
    else if reading.value < min.value then Some(Low)
    else if max.None? then None
    else if reading.value > max.value then Some(High)
    else Some(Normal)
  }

  lemma StatusRules(reading: Option<real>, min: Option<real>, max: Option<real>)
    ensures reading.None? ==> StatusOf(reading, min, max) == Some(Normal)
    ensures StatusOf(reading, min, max) == Some(Low) <==> reading.Some? && min.Some? && reading.value < min.value
    ensures StatusOf(reading, min, max) == Some(High) <==>
              reading.Some? && min.Some? && max.Some? && min.value <= reading.value && reading.value > max.value
    ensures StatusOf(reading, min, max) == Some(Normal) <==>
              reading.None? || (min.Some? && max.Some? && min.value <= reading.value <= max.value)
  {
  }

  /** The test of `check_ranges`: `value < min or value > max`, raising (`None`) where a bound is not a number. */
  function OutOfRange(value: real, min: Option<real>, max: Option<real>): Option<bool>
  {
    if min.None? then None
    else if value < min.value then Some(true)
    else if max.None? then None
    else Some(value > max.value)
  }

  /** The range check and the overview page agree: a reading is out of range exactly when its status is Low or High. */
  lemma StatusAgreesWithRangeCheck(value: real, min: Option<real>, max: Option<real>)
    ensures StatusOf(Some(value), min, max).Some? <==> OutOfRange(value, min, max).Some?
    ensures OutOfRange(value, min, max) == Some(true) <==> StatusOf(Some(value), min, max) in {Some(Low), Some(High)}
  {
  }

  // ---------------------------------------------------------------------
  // check_ranges
  // ---------------------------------------------------------------------

  /** The JSON reply: the notified sensors and the message, or `success: False` after an exception. */
  datatype RangeReply = Reply(notified: seq<string>, message: string) | Failed

  const ALL_IN_RANGE := "All readings are within range"
  const SENT_PREFIX := "Notifications sent for out-of-range readings: "

  /** `', '.join(names)`. */
  function JoinNames(names: seq<string>): string
  {
    if names == [] then ""
    else if |names| == 1 then names[0]
    else names[0] + ", " + JoinNames(names[1..])
  }

  /** One sensor's block of `check_ranges`: the test passed (`ok`), whether it alerted, and what was sent. */
  datatype Step = Step(ok: bool, alerted: bool, attempts: seq<Attempt>)

  function CheckOne(values: map<string, Value>, sensor: string, reading: Option<real>, t: Transport): Step
  {
    if reading.None? then Step(true, false, [])
    else
      var min, max := Bound(values, sensor + "_target_min"), Bound(values, sensor + "_target_max");
      match OutOfRange(reading.value, min, max)
      case None => Step(false, false, [])
      case Some(out) =>
        if !out then Step(true, false, [])
        else match NotifyOutOfRange(values, sensor, reading.value, min.value, max, t)
          case None => Step(false, false, [])
          case Some(r) => Step(true, true, r.1)
  }

  /** The three blocks in order pH, EC, temperature; an exception ends the request after what was already sent. */
  function CheckRangesSpec(values: map<string, Value>, latest: Latest, t: Transport): (RangeReply, seq<Attempt>)
  {
    var p := CheckOne(values, "ph", latest.ph, t);
    if !p.ok then (Failed, [])
    else
      var e := CheckOne(values, "ec", latest.ec, t);
      if !e.ok then (Failed, p.attempts)
      else
        var m := CheckOne(values, "temp", latest.temp, t);
        if !m.ok then (Failed, p.attempts + e.attempts)
        else
          var names := (if p.alerted then ["pH"] else []) + (if e.alerted then ["EC"] else [])
                       + (if m.alerted then ["Temperature"] else []);
          (Reply(names, if names == [] then ALL_IN_RANGE else SENT_PREFIX + JoinNames(names)),
           p.attempts + e.attempts + m.attempts)
  }

  /** The reading is present and outside its target range. */
  predicate Outside(values: map<string, Value>, sensor: string, reading: Option<real>)
  {
    reading.Some? && OutOfRange(reading.value, Bound(values, sensor + "_target_min"), Bound(values, sensor + "_target_max")) == Some(true)
  }

  /**
   * When `check_ranges` answers, it has alerted for exactly the readings outside
   * their ranges, listed in the order pH, EC, Temperature, and its message names
   * them or says that all readings are in range.
   */
  lemma CheckRangesRules(values: map<string, Value>, latest: Latest, t: Transport)
    ensures var (reply, _) := CheckRangesSpec(values, latest, t);
      reply.Reply? ==>
        && reply.notified == (if Outside(values, "ph", latest.ph) then ["pH"] else [])
                             + (if Outside(values, "ec", latest.ec) then ["EC"] else [])
                             + (if Outside(values, "temp", latest.temp) then ["Temperature"] else [])
        && reply.message == (if reply.notified == [] then ALL_IN_RANGE else SENT_PREFIX + JoinNames(reply.notified))
  {
  }

  /** With numeric bounds for every sensor the request never fails: it fails only on a bound that cannot be compared or formatted. */
  lemma CheckRangesFailsOnlyOnBadBounds(values: map<string, Value>, latest: Latest, t: Transport)
    requires forall sensor :: sensor in ["ph", "ec", "temp"] ==>
               Bound(values, sensor + "_target_min").Some? && Bound(values, sensor + "_target_max").Some?
    ensures CheckRangesSpec(values, latest, t).0.Reply?
  {
    assert "ph" in ["ph", "ec", "temp"] && "ec" in ["ph", "ec", "temp"] && "temp" in ["ph", "ec", "temp"];
  }

  /** With every reading within range nothing is sent and the reply says so. */
  lemma InRangeSendsNothing(values: map<string, Value>, latest: Latest, t: Transport)
    requires CheckRangesSpec(values, latest, t).0.Reply?
    requires !Outside(values, "ph", latest.ph) && !Outside(values, "ec", latest.ec) && !Outside(values, "temp", latest.temp)
    ensures CheckRangesSpec(values, latest, t) == (Reply([], ALL_IN_RANGE), [])
  {
  }

  /** `POST /sensors/check-ranges`, appending to `notifications_sent` block by block. */
  method CheckRanges(values: map<string, Value>, latest: Latest, t: Transport) returns (reply: RangeReply, attempts: seq<Attempt>)
    ensures (reply, attempts) == CheckRangesSpec(values, latest, t)
  {
    var notificationsSent: seq<string> := [];
    attempts := [];
    var p := CheckOne(values, "ph", latest.ph, t);
    if !p.ok {
      return Failed, attempts;
    }
    attempts := attempts + p.attempts;
    assert attempts == p.attempts;
    if p.alerted {
      notificationsSent := notificationsSent + ["pH"];
    }
    ghost var names := if p.alerted then ["pH"] else [];
    assert notificationsSent == names;
    var e := CheckOne(values, "ec", latest.ec, t);
    if !e.ok {
      return Failed, attempts;
    }
    attempts := attempts + e.attempts;
    if e.alerted {
      notificationsSent := notificationsSent + ["EC"];
    }
    names := names + (if e.alerted then ["EC"] else []);
    assert notificationsSent == names;
    var m := CheckOne(values, "temp", latest.temp, t);
    if !m.ok {
      return Failed, attempts;
    }
    attempts := attempts + m.attempts;
    if m.alerted {
      notificationsSent := notificationsSent + ["Temperature"];
    }
    names := names + (if m.alerted then ["Temperature"] else []);
    assert notificationsSent == names;
    if notificationsSent != [] {
      reply := Reply(notificationsSent, SENT_PREFIX + JoinNames(notificationsSent));
    } else {
      reply := Reply(notificationsSent, ALL_IN_RANGE);
    }
  }

  // ---------------------------------------------------------------------
  // The calibration forms
  // ---------------------------------------------------------------------

  datatype CalibrationReply = InputMissing | Calibrated | CalibrationFailed

  /** The page's verdict on what the sensor client returned: any raised error is a failure. */
  function Verdict(r: Result<(), SensorManager.SensorError>): (v: CalibrationReply)
    ensures v != InputMissing
    ensures v == Calibrated <==> r.Ok?
  {
    if r.Ok? then Calibrated else CalibrationFailed
  }

  /** `POST /sensors/calibration/ph`: a point is required before the sensor is touched. */
  method CalibratePhSensor(client: SensorManager.SensorClient, point: Option<string>, value: Option<string>)
    returns (reply: CalibrationReply)
    modifies client
    ensures !Filled(point) ==> reply == InputMissing && client.State() == old(client.State())
    ensures Filled(point) ==>
      var o := SensorManager.PhCalibration(old(client.State()), point.value, value);
      client.State() == o.w && reply == Verdict(o.result)
  {
    if !Filled(point) {
      return InputMissing;
    }
    var r := client.CalibratePh(point.value, value);
    reply := Verdict(r);
  }

  /** `POST /sensors/calibration/ec`: a point is required before the sensor is touched. */
  method CalibrateEcSensor(client: SensorManager.SensorClient, point: Option<string>, value: Option<string>)
    returns (reply: CalibrationReply)
    modifies client
    ensures !Filled(point) ==> reply == InputMissing && client.State() == old(client.State())
    ensures Filled(point) ==>
      var o := SensorManager.EcCalibration(old(client.State()), point.value, value);
      client.State() == o.w && reply == Verdict(o.result)
  {
    if !Filled(point) {
      return InputMissing;
    }
    var r := client.CalibrateEc(point.value, value);
    reply := Verdict(r);
  }

  /**
   * `POST /sensors/calibration/temperature`: a value is required, and must read
   * as a number, before the sensor is touched. `rendered` is the text Python
   * gives the parsed number, which is what the command carries.
   */
  method CalibrateTempSensor(client: SensorManager.SensorClient, value: Option<string>, rendered: string)
    returns (reply: CalibrationReply)
    modifies client
    ensures !Filled(value) ==> reply == InputMissing && client.State() == old(client.State())
    ensures Filled(value) && ParseDecimal(value.value).None? ==>
      reply == CalibrationFailed && client.State() == old(client.State())
    ensures Filled(value) && ParseDecimal(value.value).Some? ==>
      var o := SensorManager.TemperatureCalibration(old(client.State()), rendered);
      client.State() == o.w && reply == Verdict(o.result)
  {
    if !Filled(value) {
      return InputMissing;
    }
    var number := ParseDecimal(value.value);
    if number.None? {
      return CalibrationFailed;
    }
    var r := client.CalibrateTemperature(rendered);
    reply := Verdict(r);
  }
}
