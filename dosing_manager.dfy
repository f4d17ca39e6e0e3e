/**
 * `app/utils/dosing_manager.py`: the night-mode window, pump activation with
 * its gates (missing or disabled pump, night mode, per-type cooldown), the
 * dose arithmetic, and the pH and EC regulation rules.
 *
 * The module-global `last_dosing` dictionary, the GPIO pin levels and the
 * ordered record of what an activation did are the fields of `Doser`. The
 * clock, the cached sensor values, the post-dose reading and the success or
 * failure of each call that may raise are supplied in an `Outcomes` value.
 */
module DosingManager {
  import opened Common
  import opened SettingsStore
  import opened PumpModel

  // ---------------------------------------------------------------------
  // Night mode (check_night_mode)
  // ---------------------------------------------------------------------

  const MICROS_PER_DAY: nat := 24 * 60 * 60 * 1000000

  /** A `datetime.time` as microseconds since midnight; this preserves Python's ordering of times. */
  function ClockOf(h: nat, m: nat, s: nat, us: nat): (r: nat)
    requires h < 24 && m < 60 && s < 60 && us < 1000000
    ensures r < MICROS_PER_DAY
  {
    ((h * 60 + m) * 60 + s) * 1000000 + us
  }

  /** Field `i` of a split time text, 0 when absent; None when it is not an integer below `limit`. */
  function ClockField(parts: seq<string>, i: nat, limit: nat): (r: Option<nat>)
    ensures r.Some? ==> r.value < limit
  {
    if i >= |parts| then (if limit > 0 then Some(0) else None)
    else match ParseInt(parts[i])
      case Some(v) => if 0 <= v < limit then Some(v as nat) else None
      case None => None
  }

  /**
   * `dt_time(*map(int, s.split(':')))`: one to four integer fields (hour,
   * minute, second, microsecond), each in its range; None where Python raises.
   */
  function ParseClock(s: string): (r: Option<nat>)
    ensures r.Some? ==> r.value < MICROS_PER_DAY
  {
    var parts := Split(s, ':');
    if |parts| > 4 then None
    else
      match (ClockField(parts, 0, 24), ClockField(parts, 1, 60), ClockField(parts, 2, 60), ClockField(parts, 3, 1000000))
      case (Some(h), Some(m), Some(sec), Some(us)) => Some(ClockOf(h, m, sec, us))
      case _ => None
  }

  /** Two fields that read as an hour and a minute give that time of day. */
  lemma ParseClockTwoFields(s: string, h: nat, m: nat)
    requires h < 24 && m < 60
    requires |Split(s, ':')| == 2
    requires ParseInt(Split(s, ':')[0]) == Some(h) && ParseInt(Split(s, ':')[1]) == Some(m)
    ensures ParseClock(s) == Some(ClockOf(h, m, 0, 0))
  {
    var parts := Split(s, ':');
    assert ClockField(parts, 0, 24) == Some(h);
    assert ClockField(parts, 1, 60) == Some(m);
    assert ClockField(parts, 2, 60) == Some(0);
    assert ClockField(parts, 3, 1000000) == Some(0);
  }

  /** Splitting `a:b` where neither side holds a colon. */
  lemma SplitClock(a: string, b: string)
    requires ':' !in a && ':' !in b
    ensures Split(a + ":" + b, ':') == [a, b]
  {
    SplitPrefix(a, ":" + b, ':');
    assert (":" + b)[1..] == b;
    SplitWithout(b, ':');
    assert a + ":" + b == a + (":" + b);
  }

  lemma DigitsHaveNoColon(s: string)
    requires AllDigits(s)
    ensures ':' !in s
  {
    assert forall i :: 0 <= i < |s| ==> s[i] != ':';
  }

  /** `HH:MM` in the shortest decimal form reads back as that time of day. */
  lemma ParseClockHourMinute(h: nat, m: nat)
    requires h < 24 && m < 60
    ensures ParseClock(NatToString(h) + ":" + NatToString(m)) == Some(ClockOf(h, m, 0, 0))
  {
    var hs := NatToString(h);
    var ms := NatToString(m);
    DigitsHaveNoColon(hs);
    DigitsHaveNoColon(ms);
    SplitClock(hs, ms);
    ParseIntOfNat(h);
    ParseIntOfNat(m);
    ParseClockTwoFields(hs + ":" + ms, h, m);
  }

  /** The start and end of the night window, when night mode is on and both parse. */
  function NightWindow(values: map<string, Value>): (r: Option<(nat, nat)>)
  {
    if !TruthySetting(values, "night_mode_enabled", false) then None
    else match (TextSetting(values, "night_mode_start", "22:00"), TextSetting(values, "night_mode_end", "06:00"))
      case (Some(a), Some(b)) =>
        (match (ParseClock(a), ParseClock(b))
         case (Some(start), Some(end)) => Some((start, end))
         case _ => None)
      case _ => None
  }

  /**
   * `check_night_mode` at time of day `now`: off when disabled or unparsable;
   * a window with start after end wraps past midnight; both ends are inclusive.
   */
  predicate NightMode(values: map<string, Value>, now: nat)
  {
    match NightWindow(values)
    case None => false
    case Some((start, end)) =>
      if start > end then now >= start || now <= end else start <= now <= end
  }

  /** Night mode is never active while it is switched off. */
  lemma NightModeDisabled(values: map<string, Value>, now: nat)
    requires !TruthySetting(values, "night_mode_enabled", false)
    ensures !NightMode(values, now)
  {
  }

  /** A wrapping window is everything outside the open daytime interval between its end and its start. */
  lemma NightModeWraps(values: map<string, Value>, now: nat)
    requires NightWindow(values).Some? && NightWindow(values).value.0 > NightWindow(values).value.1
    ensures NightMode(values, now) <==> !(NightWindow(values).value.1 < now < NightWindow(values).value.0)
  {
  }

  /** With start equal to end the window is that one instant. */
  lemma NightModeSingleInstant(values: map<string, Value>, now: nat)
    requires NightWindow(values).Some? && NightWindow(values).value.0 == NightWindow(values).value.1
    ensures NightMode(values, now) <==> now == NightWindow(values).value.0
  {
  }

  /** Night mode switched on with the stored defaults: 22:00 to 06:00. */
  lemma DefaultNightWindow(values: map<string, Value>)
    requires "night_mode_enabled" in values && Truthy(values["night_mode_enabled"])
    requires "night_mode_start" !in values && "night_mode_end" !in values
    ensures NightWindow(values) == Some((ClockOf(22, 0, 0, 0), ClockOf(6, 0, 0, 0)))
  {
    ParseDefaultStart();
    ParseDefaultEnd();
  }

  lemma ParseTwoDigits(s: string, v: nat)
    requires |s| == 2 && IsDigit(s[0]) && IsDigit(s[1])
    requires v == DigitValue(s[0]) * 10 + DigitValue(s[1])
    ensures ParseInt(s) == Some(v)
  {
    StripUnpadded(s);
    assert AllDigits(s);
    assert s[..1][..0] == [] && s[..1][0] == s[0];
    assert DigitsValue(s[..1]) == DigitValue(s[0]);
    assert s[..|s| - 1] == s[..1];
  }

  lemma ParseDefaultStart()
    ensures ParseClock("22:00") == Some(ClockOf(22, 0, 0, 0))
  {
    SplitClock("22", "00");
    assert "22" + ":" + "00" == "22:00";
    ParseTwoDigits("22", 22);
    ParseTwoDigits("00", 0);
    ParseClockTwoFields("22:00", 22, 0);
  }

  /** "06:00" reads as 6:00: `int()` accepts the leading zero. */
  lemma ParseDefaultEnd()
    ensures ParseClock("06:00") == Some(ClockOf(6, 0, 0, 0))
  {
    SplitClock("06", "00");
    assert "06" + ":" + "00" == "06:00";
    ParseTwoDigits("06", 6);
    ParseTwoDigits("00", 0);
    ParseClockTwoFields("06:00", 6, 0);
  }

  /** With the default window, 23:30 and 02:00 are night and 12:00 is not. */
  lemma DefaultNightExamples(values: map<string, Value>)
    requires "night_mode_enabled" in values && Truthy(values["night_mode_enabled"])
    requires "night_mode_start" !in values && "night_mode_end" !in values
    ensures NightMode(values, ClockOf(23, 30, 0, 0))
    ensures NightMode(values, ClockOf(2, 0, 0, 0))
    ensures !NightMode(values, ClockOf(12, 0, 0, 0))
  {
    DefaultNightWindow(values);
  }

  // ---------------------------------------------------------------------
  // Activating a pump (activate_pump)
  // ---------------------------------------------------------------------

  /** The types `last_dosing` starts with, each last dosed at time 0. */
  function InitialLastDosing(): map<string, real>
  {
    map["ph_up" := 0.0, "ph_down" := 0.0, "nutrient_a" := 0.0, "nutrient_b" := 0.0, "nutrient_c" := 0.0]
  }

  /**
   * What the world does during one activation: the clock (`time.time()`), the
   * time of day, the cached pH and EC that `get_last_reading` returns, the
   * post-dose reading, and whether each call that may raise succeeds: the pin
   * writes, `DosingEvent.log_event`, the real-time emit, and the clean-up write.
   */
  datatype Outcomes = Outcomes(
    now: real,
    timeOfDay: nat,
    cachedPh: Option<real>,
    cachedEc: Option<real>,
    highOk: bool,
    lowOk: bool,
    afterReading: Option<real>,
    logOk: bool,
    emitOk: bool,
    cleanupOk: bool)

  /** The row `DosingEvent.log_event` writes. */
  datatype DosingEvent = DosingEvent(
    pumpId: int,
    amountMl: real,
    durationMs: int,
    reason: string,
    sensorBefore: Option<real>,
    sensorAfter: Option<real>)

  /** One observable step of an activation, in the order it happens. */
  datatype Effect =
    | Stamp(kind: string, at: real)
    | PinWrite(pin: int, level: int)
    | Logged(event: DosingEvent)
    | Emitted(pumpId: int, amountMl: real)

  /** Why an activation stopped before touching anything, or the pump it goes on with. */
  datatype Gate = Missing | Night | Cooling | WaitError(p: Pump) | Open(p: Pump)

  /** `(duration_ms / 1000.0) * pump.flow_rate`. */
  function AmountMl(durationMs: int, flowRate: real): (r: real)
    ensures durationMs >= 0 && flowRate >= 0.0 ==> r >= 0.0
  {
    (durationMs as real / 1000.0) * flowRate
  }

  /** `reason or 'manual'`. */
  function ReasonOrManual(reason: Option<string>): (r: string)
    ensures r != ""
    ensures reason.Some? && reason.value != "" ==> r == reason.value
  {
    if reason.Some? && reason.value != "" then reason.value else "manual"
  }

  /** The reading recorded as `sensor_before`: the caller's, else the cached pH or EC by pump type. */
  function SensorBefore(kind: string, given: Option<real>, w: Outcomes): (r: Option<real>)
    ensures given.Some? ==> r == given
    ensures given.None? && !StartsWith(kind, "ph") && !StartsWith(kind, "nutrient") ==> r.None?
  {
    if given.Some? then given
    else if StartsWith(kind, "ph") then w.cachedPh
    else if StartsWith(kind, "nutrient") then w.cachedEc
    else None
  }

  /** The post-dose reading: taken only for pH and nutrient pumps. */
  function SensorAfter(kind: string, w: Outcomes): (r: Option<real>)
    ensures !StartsWith(kind, "ph") && !StartsWith(kind, "nutrient") ==> r.None?
  {
    if StartsWith(kind, "ph") || StartsWith(kind, "nutrient") then w.afterReading else None
  }

  /** The cooldown key `"<type>_dose_wait_time"`. */
  function WaitKey(kind: string): string
  {
    kind + "_dose_wait_time"
  }

  /** The gates of `activate_pump`, in order: pump missing or disabled, night mode, cooldown. */
  function ActivationGate(rows: seq<Pump>, values: map<string, Value>, lastDosing: map<string, real>,
                          pumpId: int, w: Outcomes): (g: Gate)
  {
    match Find(rows, pumpId)
    case None => Missing
    case Some(p) =>
      if !p.enabled then Missing
      else if NightMode(values, w.timeOfDay) then Night
      else match NumSetting(values, WaitKey(p.kind), 60.0)
        case None => WaitError(p)
        case Some(wait) =>
          var last := if p.kind in lastDosing then lastDosing[p.kind] else 0.0;
          if w.now - last < wait then Cooling else Open(p)
  }

  /** What an activation did: its result and its effects in order. */
  datatype Activation = Activation(ok: bool, effects: seq<Effect>)

  /** The best-effort `gpio_write(chip, pin, 0)` of the exception handler. */
  function Cleanup(pin: int, chipOpen: bool, w: Outcomes): (r: seq<Effect>)
  {
    if chipOpen && w.cleanupOk then [PinWrite(pin, 0)] else []
  }

  /** An effect followed by what comes after it. */
  function Then(e: Effect, rest: Activation): (a: Activation)
    ensures a.ok == rest.ok && |a.effects| == |rest.effects| + 1 && a.effects[0] == e && a.effects[1..] == rest.effects
  {
    Activation(rest.ok, [e] + rest.effects)
  }

  /** A step that raised: the handler's clean-up, and failure. */
  function Fail(p: Pump, chipOpen: bool, w: Outcomes): (a: Activation)
    ensures !a.ok
  {
    Activation(false, Cleanup(p.gpioPin, chipOpen, w))
  }

  /** After the event is logged: the emit. */
  function AfterLog(p: Pump, chipOpen: bool, event: DosingEvent, w: Outcomes): Activation
  {
    if !w.emitOk then Fail(p, chipOpen, w) else Activation(true, [Emitted(event.pumpId, event.amountMl)])
  }

  /** After the pin went low: logging the event. */
  function AfterLow(p: Pump, chipOpen: bool, event: DosingEvent, w: Outcomes): Activation
  {
    if !w.logOk then Fail(p, chipOpen, w) else Then(Logged(event), AfterLog(p, chipOpen, event, w))
  }

  /** After the pin went high (and the pump ran): driving it low. */
  function AfterHigh(p: Pump, chipOpen: bool, event: DosingEvent, w: Outcomes): Activation
  {
    if !w.lowOk then Fail(p, chipOpen, w) else Then(PinWrite(p.gpioPin, 0), AfterLow(p, chipOpen, event, w))
  }

  /** After the cooldown stamp: driving the pin high, which needs an open chip. */
  function AfterStamp(p: Pump, chipOpen: bool, event: DosingEvent, w: Outcomes): Activation
  {
    if !(chipOpen && w.highOk) then Fail(p, chipOpen, w) else Then(PinWrite(p.gpioPin, 1), AfterHigh(p, chipOpen, event, w))
  }

  /** The event an activation logs. */
  function EventOf(p: Pump, pumpId: int, durationMs: int, reason: Option<string>, sensorBefore: Option<real>,
                   w: Outcomes): DosingEvent
  {
    DosingEvent(pumpId, AmountMl(durationMs, p.flowRate), durationMs, ReasonOrManual(reason),
                SensorBefore(p.kind, sensorBefore, w), SensorAfter(p.kind, w))
  }

  /** The body of `activate_pump` once every gate has passed. */
  function RunPump(p: Pump, chipOpen: bool, pumpId: int, durationMs: int, reason: Option<string>,
                   sensorBefore: Option<real>, w: Outcomes): (a: Activation)
  {
    Then(Stamp(p.kind, w.now), AfterStamp(p, chipOpen, EventOf(p, pumpId, durationMs, reason, sensorBefore, w), w))
  }

  /** `activate_pump(pump_id, duration_ms, reason, sensor_before)`. */
  function Activate(rows: seq<Pump>, values: map<string, Value>, lastDosing: map<string, real>, chipOpen: bool,
                    pumpId: int, durationMs: int, reason: Option<string>, sensorBefore: Option<real>,
                    w: Outcomes): (a: Activation)
  {
    match ActivationGate(rows, values, lastDosing, pumpId, w)
    case Open(p) => RunPump(p, chipOpen, pumpId, durationMs, reason, sensorBefore, w)
    case WaitError(p) => Activation(false, Cleanup(p.gpioPin, chipOpen, w))
    case _ => Activation(false, [])
  }

  /** `last_dosing` after some effects: each stamp records its time for its type. */
  function LastAfter(last: map<string, real>, effects: seq<Effect>): (r: map<string, real>)
    ensures last.Keys <= r.Keys
  {
    if effects == [] then last
    else
      var before := LastAfter(last, effects[..|effects| - 1]);
      match effects[|effects| - 1]
      case Stamp(kind, at) => before[kind := at]
      case _ => before
  }

  /** The pin levels after some effects: each write sets its pin. */
  function PinsAfter(pins: map<int, int>, effects: seq<Effect>): (r: map<int, int>)
    ensures pins.Keys <= r.Keys
  {
    if effects == [] then pins
    else
      var before := PinsAfter(pins, effects[..|effects| - 1]);
      match effects[|effects| - 1]
      case PinWrite(pin, level) => before[pin := level]
      case _ => before
  }

  /** Replaying effects in two parts is replaying them all. */
  lemma {:induction false} AfterAppend(last: map<string, real>, pins: map<int, int>, e1: seq<Effect>, e2: seq<Effect>)
    ensures LastAfter(last, e1 + e2) == LastAfter(LastAfter(last, e1), e2)
    ensures PinsAfter(pins, e1 + e2) == PinsAfter(PinsAfter(pins, e1), e2)
    decreases |e2|
  {
    if e2 == [] {
      assert e1 + e2 == e1;
    } else {
      var init := e2[..|e2| - 1];
      AfterAppend(last, pins, e1, init);
      assert (e1 + e2)[..|e1 + e2| - 1] == e1 + init;
    }
  }

  /** Effects with no stamp leave `last_dosing` alone. */
  lemma {:induction false} LastAfterWithoutStamps(last: map<string, real>, e: seq<Effect>)
    requires forall i :: 0 <= i < |e| ==> !e[i].Stamp?
    ensures LastAfter(last, e) == last
  {
    if e != [] {
      LastAfterWithoutStamps(last, e[..|e| - 1]);
    }
  }

  /** Effects with no pin write leave the pins alone. */
  lemma {:induction false} PinsAfterWithoutWrites(pins: map<int, int>, e: seq<Effect>)
    requires forall i :: 0 <= i < |e| ==> !e[i].PinWrite?
    ensures PinsAfter(pins, e) == pins
  {
    if e != [] {
      PinsAfterWithoutWrites(pins, e[..|e| - 1]);
    }
  }

  /** A gate that turns the request away leaves everything as it was. */
  lemma GateRefusalChangesNothing(rows: seq<Pump>, values: map<string, Value>, lastDosing: map<string, real>,
                                  chipOpen: bool, pumpId: int, durationMs: int, reason: Option<string>,
                                  sensorBefore: Option<real>, w: Outcomes)
    requires ActivationGate(rows, values, lastDosing, pumpId, w) in {Missing, Night, Cooling}
    ensures var a := Activate(rows, values, lastDosing, chipOpen, pumpId, durationMs, reason, sensorBefore, w);
      !a.ok && a.effects == []
  {
  }

  /** A missing or disabled pump, or night mode, refuses the activation. */
  lemma MissingOrNightRefused(rows: seq<Pump>, values: map<string, Value>, lastDosing: map<string, real>,
                              pumpId: int, w: Outcomes)
    requires Find(rows, pumpId).None? || !Find(rows, pumpId).value.enabled || NightMode(values, w.timeOfDay)
    ensures ActivationGate(rows, values, lastDosing, pumpId, w) in {Missing, Night}
  {
  }

  /**
   * The cooldown applies to every reason, 'manual' and 'test' included: an
   * enabled pump dosed less than `<type>_dose_wait_time` seconds ago (60 by
   * default, time 0 when its type was never dosed) is refused.
   */
  lemma CooldownRefusesEveryReason(rows: seq<Pump>, values: map<string, Value>, lastDosing: map<string, real>,
                                   chipOpen: bool, pumpId: int, durationMs: int, reason: Option<string>,
                                   sensorBefore: Option<real>, w: Outcomes)
    requires Find(rows, pumpId).Some? && Find(rows, pumpId).value.enabled && !NightMode(values, w.timeOfDay)
    requires var p := Find(rows, pumpId).value;
      var wait := NumSetting(values, WaitKey(p.kind), 60.0);
      wait.Some? && w.now - (if p.kind in lastDosing then lastDosing[p.kind] else 0.0) < wait.value
    ensures var a := Activate(rows, values, lastDosing, chipOpen, pumpId, durationMs, reason, sensorBefore, w);
      !a.ok && a.effects == []
  {
  }

  /**
   * Once the gates pass, the cooldown stamp is the first effect, so it comes
   * before the pin goes high, and it stays whatever happens afterwards.
   */
  lemma StampComesFirst(rows: seq<Pump>, values: map<string, Value>, lastDosing: map<string, real>,
                        chipOpen: bool, pumpId: int, durationMs: int, reason: Option<string>,
                        sensorBefore: Option<real>, w: Outcomes)
    requires ActivationGate(rows, values, lastDosing, pumpId, w).Open?
    ensures var p := ActivationGate(rows, values, lastDosing, pumpId, w).p;
      var a := Activate(rows, values, lastDosing, chipOpen, pumpId, durationMs, reason, sensorBefore, w);
      && |a.effects| >= 1 && a.effects[0] == Stamp(p.kind, w.now)
      && (forall i :: 0 <= i < |a.effects| && a.effects[i] == PinWrite(p.gpioPin, 1) ==> i >= 1)
      && LastAfter(lastDosing, a.effects) == lastDosing[p.kind := w.now]
  {
    var p := ActivationGate(rows, values, lastDosing, pumpId, w).p;
    var a := Activate(rows, values, lastDosing, chipOpen, pumpId, durationMs, reason, sensorBefore, w);
    var rest := a.effects[1..];
    assert a.effects == [Stamp(p.kind, w.now)] + rest;
    assert forall i :: 0 <= i < |rest| ==> !rest[i].Stamp?;
    AfterAppend(lastDosing, map[], [Stamp(p.kind, w.now)], rest);
    LastAfterWithoutStamps(lastDosing[p.kind := w.now], rest);
  }

  /**
   * A successful activation stamped the type, drove the pin high and then
   * low, logged the event with `amount = duration/1000 * flow` and the
   * reason (default 'manual'), and emitted it; the pin ends low.
   */
  lemma SuccessfulActivation(rows: seq<Pump>, values: map<string, Value>, lastDosing: map<string, real>,
                             pins: map<int, int>, chipOpen: bool, pumpId: int, durationMs: int,
                             reason: Option<string>, sensorBefore: Option<real>, w: Outcomes)
    requires Activate(rows, values, lastDosing, chipOpen, pumpId, durationMs, reason, sensorBefore, w).ok
    ensures ActivationGate(rows, values, lastDosing, pumpId, w).Open?
    ensures var p := ActivationGate(rows, values, lastDosing, pumpId, w).p;
      var a := Activate(rows, values, lastDosing, chipOpen, pumpId, durationMs, reason, sensorBefore, w);
      var amount := AmountMl(durationMs, p.flowRate);
      && a.effects == [Stamp(p.kind, w.now), PinWrite(p.gpioPin, 1), PinWrite(p.gpioPin, 0),
                       Logged(DosingEvent(pumpId, amount, durationMs, ReasonOrManual(reason),
                                          SensorBefore(p.kind, sensorBefore, w), SensorAfter(p.kind, w))),
                       Emitted(pumpId, amount)]
      && PinsAfter(pins, a.effects) == pins[p.gpioPin := 0]
  {
    var p := ActivationGate(rows, values, lastDosing, pumpId, w).p;
    RunPumpSucceeds(p, chipOpen, pumpId, durationMs, reason, sensorBefore, w);
    var event := EventOf(p, pumpId, durationMs, reason, sensorBefore, w);
    PinsAfterDose(pins, p.kind, w.now, p.gpioPin, event, pumpId);
  }

  /** The pins after a complete dose: its pin written high, then low. */
  lemma PinsAfterDose(pins: map<int, int>, kind: string, now: real, pin: int, event: DosingEvent, pumpId: int)
    ensures PinsAfter(pins, [Stamp(kind, now), PinWrite(pin, 1), PinWrite(pin, 0), Logged(event), Emitted(pumpId, event.amountMl)])
      == pins[pin := 0]
  {
    var e := [Stamp(kind, now), PinWrite(pin, 1), PinWrite(pin, 0), Logged(event), Emitted(pumpId, event.amountMl)];
    var e1 := [Stamp(kind, now)];
    var e2 := e1 + [PinWrite(pin, 1)];
    var e3 := e2 + [PinWrite(pin, 0)];
    assert e == e3 + e[3..];
    assert e1[..0] == [] && e2[..1] == e1 && e3[..2] == e2;
    assert PinsAfter(pins, e1) == pins;
    assert PinsAfter(pins, e2) == pins[pin := 1];
    assert PinsAfter(pins, e3) == pins[pin := 0];
    AfterAppend(map[], pins, e3, e[3..]);
    PinsAfterWithoutWrites(PinsAfter(pins, e3), e[3..]);
  }

  /** The dose succeeds exactly when every step does, and then has five effects. */
  lemma RunPumpSucceeds(p: Pump, chipOpen: bool, pumpId: int, durationMs: int, reason: Option<string>,
                        sensorBefore: Option<real>, w: Outcomes)
    ensures var a := RunPump(p, chipOpen, pumpId, durationMs, reason, sensorBefore, w);
      a.ok <==> chipOpen && w.highOk && w.lowOk && w.logOk && w.emitOk
    ensures var a := RunPump(p, chipOpen, pumpId, durationMs, reason, sensorBefore, w);
      var event := EventOf(p, pumpId, durationMs, reason, sensorBefore, w);
      a.ok ==> a.effects == [Stamp(p.kind, w.now), PinWrite(p.gpioPin, 1), PinWrite(p.gpioPin, 0),
                             Logged(event), Emitted(pumpId, event.amountMl)]
  {
  }

  /**
   * With the GPIO chip open and the clean-up write succeeding, no activation
   * leaves its pump's pin high, whatever fails along the way.
   */
  lemma PinNeverLeftHigh(rows: seq<Pump>, values: map<string, Value>, lastDosing: map<string, real>,
                         pins: map<int, int>, pumpId: int, durationMs: int, reason: Option<string>,
                         sensorBefore: Option<real>, w: Outcomes)
    requires ActivationGate(rows, values, lastDosing, pumpId, w).Open? && w.cleanupOk
    ensures var p := ActivationGate(rows, values, lastDosing, pumpId, w).p;
      var a := Activate(rows, values, lastDosing, true, pumpId, durationMs, reason, sensorBefore, w);
      p.gpioPin in PinsAfter(pins, a.effects) && PinsAfter(pins, a.effects)[p.gpioPin] == 0
  {
    var p := ActivationGate(rows, values, lastDosing, pumpId, w).p;
    var a := Activate(rows, values, lastDosing, true, pumpId, durationMs, reason, sensorBefore, w);
    if a.ok {
      SuccessfulActivation(rows, values, lastDosing, pins, true, pumpId, durationMs, reason, sensorBefore, w);
    } else {
      var e := a.effects;
      assert e[|e| - 1] == PinWrite(p.gpioPin, 0);
    }
  }

  /** Without an open GPIO chip no pin is written; the request fails after stamping the cooldown. */
  lemma ClosedChipWritesNothing(rows: seq<Pump>, values: map<string, Value>, lastDosing: map<string, real>,
                                pins: map<int, int>, pumpId: int, durationMs: int, reason: Option<string>,
                                sensorBefore: Option<real>, w: Outcomes)
    ensures var a := Activate(rows, values, lastDosing, false, pumpId, durationMs, reason, sensorBefore, w);
      !a.ok && PinsAfter(pins, a.effects) == pins
  {
    var a := Activate(rows, values, lastDosing, false, pumpId, durationMs, reason, sensorBefore, w);
    PinsAfterWithoutWrites(pins, a.effects);
  }

  /**
   * When the real-time emit raises, the dose has run and been logged, yet the
   * activation reports failure.
   */
  lemma EmitFailureReportsFailure(rows: seq<Pump>, values: map<string, Value>, lastDosing: map<string, real>,
                                  pumpId: int, durationMs: int, reason: Option<string>,
                                  sensorBefore: Option<real>, w: Outcomes)
    requires ActivationGate(rows, values, lastDosing, pumpId, w).Open?
    requires w.highOk && w.lowOk && w.logOk && !w.emitOk
    ensures var a := Activate(rows, values, lastDosing, true, pumpId, durationMs, reason, sensorBefore, w);
      !a.ok && |a.effects| >= 4 && a.effects[3].Logged? && a.effects[1].PinWrite? && a.effects[1].level == 1
  {
  }

  /**
   * Dosing `amount` ml for `calculate_dosing_time(amount)` milliseconds delivers
   * at most `amount`, and less by under one millisecond's flow.
   */
  lemma DoseRoundTrip(flowRate: real, amount: real)
    requires flowRate > 0.0 && amount >= 0.0
    ensures AmountMl(DosingTime(flowRate, amount), flowRate) <= amount
    ensures amount - flowRate / 1000.0 < AmountMl(DosingTime(flowRate, amount), flowRate)
  {
    DosingTimeBounds(flowRate, amount);
    var t := DosingTime(flowRate, amount) as real;
    var exact := amount / flowRate * 1000.0;
    var k := flowRate / 1000.0;
    assert t <= exact < t + 1.0;
    assert AmountMl(DosingTime(flowRate, amount), flowRate) == t * k;
    assert exact * k == amount;
    assert (t + 1.0) * k == t * k + k;
    RealScale(t, exact, k);
    RealScale(exact, t + 1.0, k);
    assert amount < t * k + k;
  }

  lemma RealScale(x: real, y: real, k: real)
    requires x <= y && k > 0.0
    ensures x * k <= y * k
    ensures x < y ==> x * k < y * k
  {
  }

  // ---------------------------------------------------------------------
  // Regulation (calculate_dose_amount, check_and_adjust_ph/ec, schedule_dosing_checks)
  // ---------------------------------------------------------------------

  /**
   * `calculate_dose_amount`: the `ph_dose_amount` setting (1.0) for a type
   * starting with 'ph', `ec_dose_amount` (5.0) for one starting with
   * 'nutrient', else 1.0; None where the stored value is not a number.
   */
  function DoseAmount(values: map<string, Value>, kind: string): (r: Option<real>)
    ensures StartsWith(kind, "ph") && "ph_dose_amount" !in values ==> r == Some(1.0)
    ensures !StartsWith(kind, "ph") && StartsWith(kind, "nutrient") && "ec_dose_amount" !in values ==> r == Some(5.0)
    ensures !StartsWith(kind, "ph") && !StartsWith(kind, "nutrient") ==> r == Some(1.0)
  {
    if StartsWith(kind, "ph") then NumSetting(values, "ph_dose_amount", 1.0)
    else if StartsWith(kind, "nutrient") then NumSetting(values, "ec_dose_amount", 5.0)
    else Some(1.0)
  }

  /** Every nutrient type, legacy or current, doses `ec_dose_amount`. */
  lemma DoseAmountNutrient(values: map<string, Value>, kind: string)
    requires StartsWith(kind, "nutrient")
    ensures DoseAmount(values, kind) == NumSetting(values, "ec_dose_amount", 5.0)
  {
    assert kind[0] == kind[..8][0] == 'n';
    assert !StartsWith(kind, "ph") by {
      assert kind[..2][0] == 'n';
    }
  }

  /** One call of `activate_pump` made by the regulation loop. */
  datatype Request = Request(pumpId: int, durationMs: int, reason: string, sensorBefore: real)

  /**
   * `calculate_dosing_time` applied to a dose amount that may be the wrong
   * type: a pump without positive flow rate returns 0 before using the
   * amount; otherwise a non-numeric amount raises (None).
   */
  function DurationFor(p: Pump, amount: Option<real>): (r: Option<int>)
    ensures p.flowRate <= 0.0 ==> r == Some(0)
    ensures p.flowRate > 0.0 ==> (r.Some? <==> amount.Some?)
    ensures r.Some? && amount.Some? ==> r.value == DosingTime(p.flowRate, amount.value)
  {
    if p.flowRate <= 0.0 then Some(0)
    else if amount.None? then None
    else Some(DosingTime(p.flowRate, amount.value))
  }

  /** Dose with the first enabled pump of a type, for that type's configured amount. */
  function DoseFirst(rows: seq<Pump>, values: map<string, Value>, kind: string, reason: string, reading: real): (r: Option<Request>)
    ensures r.Some? ==> ByType(rows, kind) != [] && r.value.pumpId == ByType(rows, kind)[0].id
    ensures r.Some? ==> r.value.reason == reason && r.value.sensorBefore == reading
    ensures r.Some? ==> DoseAmount(values, kind).Some? ==>
      r.value.durationMs == DosingTime(ByType(rows, kind)[0].flowRate, DoseAmount(values, kind).value)
    ensures ByType(rows, kind) != [] && DoseAmount(values, kind).Some? ==> r.Some?
  {
    var ps := ByType(rows, kind);
    if ps == [] then None
    else match DurationFor(ps[0], DoseAmount(values, kind))
      case None => None
      case Some(ms) => Some(Request(ps[0].id, ms, reason, reading))
  }

  /**
   * `check_and_adjust_ph` with the pH `reading` from `get_last_reading('ph')`:
   * below `ph_target_min` (5.8) the first enabled pH Up pump, above
   * `ph_target_max` (6.2) the first enabled pH Down pump. A target that is not
   * a number makes its comparison raise, which ends the check.
   */
  function PhRequest(rows: seq<Pump>, values: map<string, Value>, reading: Option<real>): Option<Request>
  {
    if !TruthySetting(values, "auto_dosing_enabled", true) || reading.None? then None
    else
      var ph := reading.value;
      match NumSetting(values, "ph_target_min", 5.8)
      case None => None
      case Some(lo) =>
        if ph < lo then DoseFirst(rows, values, "ph_up", "ph_low", ph)
        else match NumSetting(values, "ph_target_max", 6.2)
          case None => None
          case Some(hi) => if ph > hi then DoseFirst(rows, values, "ph_down", "ph_high", ph) else None
  }

  /** The pH rule doses up only below the minimum and down only above the maximum, never otherwise. */
  lemma PhRequestRule(rows: seq<Pump>, values: map<string, Value>, reading: Option<real>)
    ensures var r := PhRequest(rows, values, reading);
      r.Some? ==> TruthySetting(values, "auto_dosing_enabled", true) && reading.Some? && r.value.sensorBefore == reading.value
    ensures var r := PhRequest(rows, values, reading);
      r.Some? && r.value.reason == "ph_low" ==>
        NumSetting(values, "ph_target_min", 5.8).Some? && reading.value < NumSetting(values, "ph_target_min", 5.8).value
        && r.value.pumpId == ByType(rows, "ph_up")[0].id
    ensures var r := PhRequest(rows, values, reading);
      r.Some? && r.value.reason != "ph_low" ==>
        r.value.reason == "ph_high"
        && NumSetting(values, "ph_target_max", 6.2).Some? && reading.value > NumSetting(values, "ph_target_max", 6.2).value
        && r.value.pumpId == ByType(rows, "ph_down")[0].id
  {
  }

  /** Within [min, max] nothing is dosed. */
  lemma PhInRangeNoDose(rows: seq<Pump>, values: map<string, Value>, ph: real)
    requires NumSetting(values, "ph_target_min", 5.8).Some? && NumSetting(values, "ph_target_max", 6.2).Some?
    requires NumSetting(values, "ph_target_min", 5.8).value <= ph <= NumSetting(values, "ph_target_max", 6.2).value
    ensures PhRequest(rows, values, Some(ph)).None?
  {
  }

  /** With the default settings, pH 5.5 calls for one millilitre from the first enabled pH Up pump. */
  lemma PhLowDefault(rows: seq<Pump>, values: map<string, Value>)
    requires "auto_dosing_enabled" !in values && "ph_target_min" !in values && "ph_dose_amount" !in values
    requires ByType(rows, "ph_up") != []
    ensures PhRequest(rows, values, Some(5.5)).Some?
    ensures var r := PhRequest(rows, values, Some(5.5)).value;
      r.pumpId == ByType(rows, "ph_up")[0].id && r.reason == "ph_low"
      && r.durationMs == DosingTime(ByType(rows, "ph_up")[0].flowRate, 1.0)
  {
    assert StartsWith("ph_up", "ph");
  }

  /** With the default settings, pH 6.5 calls for the first enabled pH Down pump. */
  lemma PhHighDefault(rows: seq<Pump>, values: map<string, Value>)
    requires "auto_dosing_enabled" !in values && "ph_target_min" !in values && "ph_target_max" !in values
    requires "ph_dose_amount" !in values && ByType(rows, "ph_down") != []
    ensures PhRequest(rows, values, Some(6.5)).Some?
    ensures PhRequest(rows, values, Some(6.5)).value.pumpId == ByType(rows, "ph_down")[0].id
    ensures PhRequest(rows, values, Some(6.5)).value.reason == "ph_high"
  {
    assert StartsWith("ph_down", "ph");
  }

  /** The legacy types `check_and_adjust_ec` walks through, in order. */
  const LEGACY_NUTRIENT_TYPES: seq<string> := ["nutrient_a", "nutrient_b", "nutrient_c"]

  /**
   * The loop of `check_and_adjust_ec`: for each type in order, the first
   * enabled pump of that type, skipping a type without one; a dose amount that
   * makes the time computation raise ends the loop there.
   */
  function FirstOfEach(rows: seq<Pump>, values: map<string, Value>, kinds: seq<string>, reading: real): (r: seq<Request>)
    ensures |r| <= |kinds|
    ensures forall i :: 0 <= i < |r| ==> r[i].reason == "ec_low" && r[i].sensorBefore == reading
  {
    if kinds == [] then []
    else
      var ps := ByType(rows, kinds[0]);
      if ps == [] then FirstOfEach(rows, values, kinds[1..], reading)
      else match DurationFor(ps[0], DoseAmount(values, kinds[0]))
        case None => []
        case Some(ms) => [Request(ps[0].id, ms, "ec_low", reading)] + FirstOfEach(rows, values, kinds[1..], reading)
  }

  /** One step of the walk over the types. */
  lemma FirstOfEachStep(rows: seq<Pump>, values: map<string, Value>, kinds: seq<string>, reading: real)
    requires kinds != []
    ensures var ps := ByType(rows, kinds[0]);
      var rest := FirstOfEach(rows, values, kinds[1..], reading);
      && (ps == [] ==> FirstOfEach(rows, values, kinds, reading) == rest)
      && (ps != [] && DurationFor(ps[0], DoseAmount(values, kinds[0])).None? ==> FirstOfEach(rows, values, kinds, reading) == [])
      && (ps != [] && DurationFor(ps[0], DoseAmount(values, kinds[0])).Some? ==>
            FirstOfEach(rows, values, kinds, reading)
              == [Request(ps[0].id, DurationFor(ps[0], DoseAmount(values, kinds[0])).value, "ec_low", reading)] + rest)
  {
  }

  /** The ids of the first enabled pump of each of `kinds` that has one. */
  function FirstPumpIds(rows: seq<Pump>, kinds: seq<string>): set<int>
  {
    set k | k in kinds && ByType(rows, k) != [] :: ByType(rows, k)[0].id
  }

  lemma FirstPumpIdsTail(rows: seq<Pump>, kinds: seq<string>)
    requires kinds != []
    ensures FirstPumpIds(rows, kinds[1..]) <= FirstPumpIds(rows, kinds)
    ensures ByType(rows, kinds[0]) != [] ==> ByType(rows, kinds[0])[0].id in FirstPumpIds(rows, kinds)
  {
    forall id | id in FirstPumpIds(rows, kinds[1..]) ensures id in FirstPumpIds(rows, kinds) {
      var k :| k in kinds[1..] && ByType(rows, k) != [] && ByType(rows, k)[0].id == id;
      assert k in kinds;
    }
    assert kinds[0] in kinds;
  }

  /** Every request goes to the first enabled pump of one of the walked types. */
  lemma {:induction false} FirstOfEachPumps(rows: seq<Pump>, values: map<string, Value>, kinds: seq<string>, reading: real)
    ensures forall r :: r in FirstOfEach(rows, values, kinds, reading) ==> r.pumpId in FirstPumpIds(rows, kinds)
  {
    if kinds != [] {
      FirstOfEachPumps(rows, values, kinds[1..], reading);
      FirstPumpIdsTail(rows, kinds);
      var r := FirstOfEach(rows, values, kinds, reading);
      var rest := FirstOfEach(rows, values, kinds[1..], reading);
      if ByType(rows, kinds[0]) == [] {
        assert r == rest;

      } else if DurationFor(ByType(rows, kinds[0])[0], DoseAmount(values, kinds[0])).Some? {
        var p := ByType(rows, kinds[0])[0];
        assert r == [Request(p.id, DurationFor(p, DoseAmount(values, kinds[0])).value, "ec_low", reading)] + rest;

      }
    }
  }

  /** No enabled pump of any walked type: no request. */
  lemma {:induction false} FirstOfEachNone(rows: seq<Pump>, values: map<string, Value>, kinds: seq<string>, reading: real)
    requires forall k :: k in kinds ==> ByType(rows, k) == []
    ensures FirstOfEach(rows, values, kinds, reading) == []
  {
    if kinds != [] {
      assert kinds[0] in kinds;
      FirstOfEachNone(rows, values, kinds[1..], reading);
    }
  }

  /**
   * `check_and_adjust_ec` with the EC `reading`: only below `ec_target_min`
   * (1.2), one dose of `ec_dose_amount` with the first enabled pump of each
   * legacy type `nutrient_a`, `nutrient_b`, `nutrient_c`.
   */
  function EcRequests(rows: seq<Pump>, values: map<string, Value>, reading: Option<real>): seq<Request>
  {
    if !TruthySetting(values, "auto_dosing_enabled", true) || reading.None? then []
    else match NumSetting(values, "ec_target_min", 1.2)
      case None => []
      case Some(lo) => if reading.value < lo then FirstOfEach(rows, values, LEGACY_NUTRIENT_TYPES, reading.value) else []
  }

  /** EC at or above the minimum never doses: nutrients can only be added. */
  lemma EcOnlyWhenLow(rows: seq<Pump>, values: map<string, Value>, ec: real)
    requires NumSetting(values, "ec_target_min", 1.2).Some? && ec >= NumSetting(values, "ec_target_min", 1.2).value
    ensures EcRequests(rows, values, Some(ec)) == []
  {
  }

  /**
   * A pumps table whose nutrient pumps all have the current type 'nutrient'
   * (as `create_pump` and `migrate_pump_types` leave it) is never dosed by the EC rule.
   */
  lemma EcIgnoresMigratedPumps(rows: seq<Pump>, values: map<string, Value>, reading: Option<real>)
    requires forall p :: p in rows ==> p.kind !in LEGACY_NUTRIENT_TYPES
    ensures EcRequests(rows, values, reading) == []
  {
    ByTypeAbsent(rows, "nutrient_a");
    ByTypeAbsent(rows, "nutrient_b");
    ByTypeAbsent(rows, "nutrient_c");
    if reading.Some? {
      FirstOfEachNone(rows, values, LEGACY_NUTRIENT_TYPES, reading.value);
    }
  }

  /** Below the minimum, each request goes to the first enabled pump of one of the legacy types. */
  lemma EcDosesLegacyPumps(rows: seq<Pump>, values: map<string, Value>, reading: Option<real>)
    ensures var r := EcRequests(rows, values, reading);
      forall q :: q in r ==>
        q.reason == "ec_low" && reading.Some? && q.sensorBefore == reading.value
        && q.pumpId in FirstPumpIds(rows, LEGACY_NUTRIENT_TYPES)
  {
    var r := EcRequests(rows, values, reading);
    if r != [] {
      assert r == FirstOfEach(rows, values, LEGACY_NUTRIENT_TYPES, reading.value);
      FirstOfEachPumps(rows, values, LEGACY_NUTRIENT_TYPES, reading.value);
    }
  }

  /** With nutrient_a and nutrient_b pumps, the first dose is nutrient_a's and the second nutrient_b's. */
  lemma EcDosesInTypeOrder(rows: seq<Pump>, values: map<string, Value>, ec: real)
    requires NumSetting(values, "ec_dose_amount", 5.0).Some?
    requires ByType(rows, "nutrient_a") != [] && ByType(rows, "nutrient_b") != []
    ensures var r := FirstOfEach(rows, values, LEGACY_NUTRIENT_TYPES, ec);
      |r| >= 2 && r[0].pumpId == ByType(rows, "nutrient_a")[0].id && r[1].pumpId == ByType(rows, "nutrient_b")[0].id
  {
    var kinds := LEGACY_NUTRIENT_TYPES;
    assert kinds[0] == "nutrient_a" && kinds[1] == "nutrient_b";
    assert kinds[1..][0] == kinds[1];
    DoseAmountNutrient(values, "nutrient_a");
    DoseAmountNutrient(values, "nutrient_b");
    var pa := ByType(rows, "nutrient_a")[0];
    var pb := ByType(rows, "nutrient_b")[0];
    var rest := FirstOfEach(rows, values, kinds[1..][1..], ec);
    var mb := DurationFor(pb, DoseAmount(values, "nutrient_b"));
    assert mb.Some?;
    assert FirstOfEach(rows, values, kinds[1..], ec) == [Request(pb.id, mb.value, "ec_low", ec)] + rest;
    var ma := DurationFor(pa, DoseAmount(values, "nutrient_a"));
    assert ma.Some?;
  }

  /** A job `schedule_dosing_checks` registers: its id and its interval setting. */
  datatype Job = Job(id: string, interval: Value)

  /** `schedule_dosing_checks`: nothing while auto-dosing is off, else the pH and EC checks. */
  function ScheduledJobs(values: map<string, Value>): (jobs: seq<Job>)
    ensures !TruthySetting(values, "auto_dosing_enabled", true) <==> jobs == []
    ensures jobs != [] ==> |jobs| == 2 && jobs[0].id == "ph_check" && jobs[1].id == "ec_check"
    ensures jobs != [] && "ph_check_interval" !in values ==> jobs[0].interval == Num(300.0)
    ensures jobs != [] && "ec_check_interval" in values ==> jobs[1].interval == values["ec_check_interval"]
  {
    if !TruthySetting(values, "auto_dosing_enabled", true) then []
    else
      [Job("ph_check", if "ph_check_interval" in values then values["ph_check_interval"] else Num(300.0)),
       Job("ec_check", if "ec_check_interval" in values then values["ec_check_interval"] else Num(300.0))]
  }

  /** `activate_pump` called as the regulation loop calls it. */
  function ActivateRequest(rows: seq<Pump>, values: map<string, Value>, last: map<string, real>, chipOpen: bool,
                           q: Request, w: Outcomes): Activation
  {
    Activate(rows, values, last, chipOpen, q.pumpId, q.durationMs, Some(q.reason), Some(q.sensorBefore), w)
  }

  /**
   * The effects of a series of activations, the k-th meeting `ws[k]` and
   * seeing the stamps of the ones before it.
   */
  function RunRequests(rows: seq<Pump>, values: map<string, Value>, last: map<string, real>, chipOpen: bool,
                       reqs: seq<Request>, ws: seq<Outcomes>): (effects: seq<Effect>)
    requires |ws| >= |reqs|
  {
    if reqs == [] then []
    else
      var before := RunRequests(rows, values, last, chipOpen, reqs[..|reqs| - 1], ws);
      before + ActivateRequest(rows, values, LastAfter(last, before), chipOpen, reqs[|reqs| - 1], ws[|reqs| - 1]).effects
  }

  /** One more request at the end of a series adds its activation's effects, seeing the stamps before it. */
  lemma RunRequestsSnoc(rows: seq<Pump>, values: map<string, Value>, last: map<string, real>, chipOpen: bool,
                        done: seq<Request>, q: Request, ws: seq<Outcomes>)
    requires |ws| > |done|
    ensures var e := RunRequests(rows, values, last, chipOpen, done, ws);
      RunRequests(rows, values, last, chipOpen, done + [q], ws)
        == e + ActivateRequest(rows, values, LastAfter(last, e), chipOpen, q, ws[|done|]).effects
  {
    assert (done + [q])[..|done|] == done && (done + [q])[|done|] == q;
  }

  /** The state after a series followed by more effects is the state after the series, then those effects. */
  lemma ExtendSeries(trace0: seq<Effect>, last0: map<string, real>, pins0: map<int, int>, e: seq<Effect>, more: seq<Effect>)
    ensures trace0 + e + more == trace0 + (e + more)
    ensures LastAfter(last0, e + more) == LastAfter(LastAfter(last0, e), more)
    ensures PinsAfter(pins0, e + more) == PinsAfter(PinsAfter(pins0, e), more)
  {
    AfterAppend(last0, pins0, e, more);
  }

  lemma SeqAppendEmpty<T>(s: seq<T>)
    ensures s + [] == s
  {
  }

  lemma SeqAssoc<T>(a: seq<T>, b: seq<T>, c: seq<T>)
    ensures a + b + c == a + (b + c)
  {
  }

  /**
   * One pass of the loop of `check_and_adjust_ec` for `kind`: skipped without
   * a pump, stopped by a failing time computation, else one more request.
   */
  predicate Visited(rows: seq<Pump>, values: map<string, Value>, kind: string, ec: real,
                    before: seq<Request>, after: seq<Request>, stop: bool)
  {
    var ps := ByType(rows, kind);
    if ps == [] then after == before && !stop
    else match DurationFor(ps[0], DoseAmount(values, kind))
      case None => after == before && stop
      case Some(ms) => after == before + [Request(ps[0].id, ms, "ec_low", ec)] && !stop
  }

  /** A pass of the loop keeps the requests made so far a prefix of those `FirstOfEach` calls for. */
  lemma WalkStep(rows: seq<Pump>, values: map<string, Value>, kinds: seq<string>, i: int, ec: real,
                 before: seq<Request>, after: seq<Request>, stop: bool)
    requires 0 <= i < |kinds|
    requires FirstOfEach(rows, values, kinds, ec) == before + FirstOfEach(rows, values, kinds[i..], ec)
    requires Visited(rows, values, kinds[i], ec, before, after, stop)
    ensures !stop ==> FirstOfEach(rows, values, kinds, ec) == after + FirstOfEach(rows, values, kinds[i + 1..], ec)
    ensures stop ==> FirstOfEach(rows, values, kinds, ec) == after
  {
    var rest := FirstOfEach(rows, values, kinds[i + 1..], ec);
    FirstOfEachStep(rows, values, kinds[i..], ec);
    assert kinds[i..][0] == kinds[i] && kinds[i..][1..] == kinds[i + 1..];
    if stop {
      SeqAppendEmpty(before);
    } else if after != before {
      SeqAssoc(before, [after[|after| - 1]], rest);
    }
  }

  // ---------------------------------------------------------------------
  // The dosing state
  // ---------------------------------------------------------------------

  /**
   * The state `dosing_manager` keeps between calls: `last_dosing`, the level
   * last written to each GPIO pin, the ordered record of effects, and whether
   * the GPIO chip handle is open.
   */
  class Doser {
    var lastDosing: map<string, real>
    var pins: map<int, int>
    var trace: seq<Effect>
    var chipOpen: bool

    constructor (chipOpen: bool)
      ensures lastDosing == InitialLastDosing() && pins == map[] && trace == [] && this.chipOpen == chipOpen
    {
      lastDosing := InitialLastDosing();
      pins := map[];
      trace := [];
      this.chipOpen := chipOpen;
    }

    /** `last_dosing[kind] = at`. */
    method StampDose(kind: string, at: real)
      modifies this
      ensures trace == old(trace) + [Stamp(kind, at)]
      ensures lastDosing == old(lastDosing)[kind := at] && pins == old(pins) && chipOpen == old(chipOpen)
    {
      lastDosing := lastDosing[kind := at];
      trace := trace + [Stamp(kind, at)];
    }

    /** `lgpio.gpio_write(chip, pin, level)` that succeeded. */
    method WritePin(pin: int, level: int)
      modifies this
      ensures trace == old(trace) + [PinWrite(pin, level)]
      ensures pins == old(pins)[pin := level] && lastDosing == old(lastDosing) && chipOpen == old(chipOpen)
    {
      pins := pins[pin := level];
      trace := trace + [PinWrite(pin, level)];
    }

    /** Record a logged event or an emitted message. */
    method Note(e: Effect)
      requires e.Logged? || e.Emitted?
      modifies this
      ensures trace == old(trace) + [e]
      ensures pins == old(pins) && lastDosing == old(lastDosing) && chipOpen == old(chipOpen)
    {
      trace := trace + [e];
    }

    /** The exception handler's best-effort write of the pin low. */
    method CleanupPin(pin: int, w: Outcomes)
      modifies this
      ensures trace == old(trace) + Cleanup(pin, old(chipOpen), w)
      ensures pins == PinsAfter(old(pins), Cleanup(pin, old(chipOpen), w))
      ensures lastDosing == old(lastDosing) && chipOpen == old(chipOpen)
    {
      if chipOpen && w.cleanupOk {
        WritePin(pin, 0);
        assert [PinWrite(pin, 0)][..0] == [];
      }
    }

    /** Replaying one effect and then the rest. */
    static lemma StepThen(t: seq<Effect>, last: map<string, real>, pins: map<int, int>, e: Effect, rest: seq<Effect>)
      ensures t + [e] + rest == t + ([e] + rest)
      ensures LastAfter(last, [e] + rest) == LastAfter(if e.Stamp? then last[e.kind := e.at] else last, rest)
      ensures PinsAfter(pins, [e] + rest) == PinsAfter(if e.PinWrite? then pins[e.pin := e.level] else pins, rest)
    {
      AfterAppend(last, pins, [e], rest);
      assert [e][..0] == [];
    }

    method EmitStage(p: Pump, event: DosingEvent, w: Outcomes) returns (ok: bool)
      modifies this
      ensures var a := AfterLog(p, old(chipOpen), event, w);
        ok == a.ok && trace == old(trace) + a.effects
        && lastDosing == LastAfter(old(lastDosing), a.effects) && pins == PinsAfter(old(pins), a.effects)
      ensures chipOpen == old(chipOpen)
    {
      if !w.emitOk {
        CleanupPin(p.gpioPin, w);
        LastAfterWithoutStamps(lastDosing, Cleanup(p.gpioPin, chipOpen, w));
        return false;
      }
      Note(Emitted(event.pumpId, event.amountMl));
      StepThen(old(trace), old(lastDosing), old(pins), Emitted(event.pumpId, event.amountMl), []);
      ok := true;
    }

    method LogStage(p: Pump, event: DosingEvent, w: Outcomes) returns (ok: bool)
      modifies this
      ensures var a := AfterLow(p, old(chipOpen), event, w);
        ok == a.ok && trace == old(trace) + a.effects
        && lastDosing == LastAfter(old(lastDosing), a.effects) && pins == PinsAfter(old(pins), a.effects)
      ensures chipOpen == old(chipOpen)
    {
      if !w.logOk {
        CleanupPin(p.gpioPin, w);
        LastAfterWithoutStamps(lastDosing, Cleanup(p.gpioPin, chipOpen, w));
        return false;
      }
      Note(Logged(event));
      ok := EmitStage(p, event, w);
      StepThen(old(trace), old(lastDosing), old(pins), Logged(event), AfterLog(p, chipOpen, event, w).effects);
    }

    method LowStage(p: Pump, event: DosingEvent, w: Outcomes) returns (ok: bool)
      modifies this
      ensures var a := AfterHigh(p, old(chipOpen), event, w);
        ok == a.ok && trace == old(trace) + a.effects
        && lastDosing == LastAfter(old(lastDosing), a.effects) && pins == PinsAfter(old(pins), a.effects)
      ensures chipOpen == old(chipOpen)
    {
      if !w.lowOk {
        CleanupPin(p.gpioPin, w);
        LastAfterWithoutStamps(lastDosing, Cleanup(p.gpioPin, chipOpen, w));
        return false;
      }
      WritePin(p.gpioPin, 0);
      ok := LogStage(p, event, w);
      StepThen(old(trace), old(lastDosing), old(pins), PinWrite(p.gpioPin, 0), AfterLow(p, chipOpen, event, w).effects);
    }

    method HighStage(p: Pump, event: DosingEvent, w: Outcomes) returns (ok: bool)
      modifies this
      ensures var a := AfterStamp(p, old(chipOpen), event, w);
        ok == a.ok && trace == old(trace) + a.effects
        && lastDosing == LastAfter(old(lastDosing), a.effects) && pins == PinsAfter(old(pins), a.effects)
      ensures chipOpen == old(chipOpen)
    {
      if !(chipOpen && w.highOk) {
        CleanupPin(p.gpioPin, w);
        LastAfterWithoutStamps(lastDosing, Cleanup(p.gpioPin, chipOpen, w));
        return false;
      }
      WritePin(p.gpioPin, 1);
      ok := LowStage(p, event, w);
      StepThen(old(trace), old(lastDosing), old(pins), PinWrite(p.gpioPin, 1), AfterHigh(p, chipOpen, event, w).effects);
    }

    /** The part of `activate_pump` after the gates: stamp, then the pin stages. */
    method RunPumpSteps(p: Pump, pumpId: int, durationMs: int, reason: Option<string>,
                        sensorBefore: Option<real>, w: Outcomes) returns (ok: bool)
      modifies this
      ensures var a := RunPump(p, old(chipOpen), pumpId, durationMs, reason, sensorBefore, w);
        ok == a.ok && trace == old(trace) + a.effects
        && lastDosing == LastAfter(old(lastDosing), a.effects) && pins == PinsAfter(old(pins), a.effects)
      ensures chipOpen == old(chipOpen)
    {
      var event := DosingEvent(pumpId, AmountMl(durationMs, p.flowRate), durationMs, ReasonOrManual(reason),
                               SensorBefore(p.kind, sensorBefore, w), SensorAfter(p.kind, w));
      StampDose(p.kind, w.now);
      ok := HighStage(p, event, w);
      StepThen(old(trace), old(lastDosing), old(pins), Stamp(p.kind, w.now), AfterStamp(p, chipOpen, event, w).effects);
    }

    /**
     * `activate_pump`: the gates in order (missing or disabled pump, night
     * mode, the cooldown setting, the cooldown), then the dose.
     */
    method ActivatePump(rows: seq<Pump>, values: map<string, Value>, pumpId: int, durationMs: int,
                        reason: Option<string>, sensorBefore: Option<real>, w: Outcomes) returns (ok: bool)
      modifies this
      ensures var a := Activate(rows, values, old(lastDosing), old(chipOpen), pumpId, durationMs, reason, sensorBefore, w);
        ok == a.ok && trace == old(trace) + a.effects
        && lastDosing == LastAfter(old(lastDosing), a.effects) && pins == PinsAfter(old(pins), a.effects)
      ensures chipOpen == old(chipOpen)
    {
      var gate := CheckGates(rows, values, pumpId, w);
      match gate {
        case Open(p) =>
          ok := RunPumpSteps(p, pumpId, durationMs, reason, sensorBefore, w);
        case WaitError(p) =>
          CleanupPin(p.gpioPin, w);
          LastAfterWithoutStamps(lastDosing, Cleanup(p.gpioPin, chipOpen, w));
          ok := false;
        case _ =>
          SeqAppendEmpty(trace);
          ok := false;
      }
    }

    /** The gates at the head of `activate_pump`: pump missing or disabled, night mode, cooldown. */
    method CheckGates(rows: seq<Pump>, values: map<string, Value>, pumpId: int, w: Outcomes) returns (gate: Gate)
      ensures gate == ActivationGate(rows, values, lastDosing, pumpId, w)
    {
      var found := Find(rows, pumpId);
      if found.None? || !found.value.enabled {
        return Missing;
      }
      var p := found.value;
      if NightMode(values, w.timeOfDay) {
        return Night;
      }
      var wait := NumSetting(values, WaitKey(p.kind), 60.0);
      if wait.None? {
        return WaitError(p);
      }
      var last := if p.kind in lastDosing then lastDosing[p.kind] else 0.0;
      if w.now - last < wait.value {
        return Cooling;
      }
      return Open(p);
    }
  
    /** Dose with the first enabled pump of a type for its configured amount, if the time can be computed. */
    method DoseWithFirst(rows: seq<Pump>, values: map<string, Value>, kind: string, reason: string,
                         reading: real, w: Outcomes) returns (ok: bool)
      modifies this
      ensures var r := DoseFirst(rows, values, kind, reason, reading);
        r.None? ==> !ok && trace == old(trace) && lastDosing == old(lastDosing) && pins == old(pins)
      ensures var r := DoseFirst(rows, values, kind, reason, reading);
        r.Some? ==>
          var a := Activate(rows, values, old(lastDosing), old(chipOpen), r.value.pumpId, r.value.durationMs,
                            Some(reason), Some(reading), w);
          ok == a.ok && trace == old(trace) + a.effects
          && lastDosing == LastAfter(old(lastDosing), a.effects) && pins == PinsAfter(old(pins), a.effects)
      ensures chipOpen == old(chipOpen)
    {
      var ps := ByType(rows, kind);
      if ps == [] {
        return false;
      }
      var ms := DurationFor(ps[0], DoseAmount(values, kind));
      if ms.None? {
        return false;
      }
      ok := ActivatePump(rows, values, ps[0].id, ms.value, Some(reason), Some(reading), w);
    }

    /** `check_and_adjust_ph` on the reading it fetched: the activation `PhRequest` calls for, if any. */
    method CheckAndAdjustPh(rows: seq<Pump>, values: map<string, Value>, reading: Option<real>, w: Outcomes)
      modifies this
      ensures var r := PhRequest(rows, values, reading);
        r.None? ==> trace == old(trace) && lastDosing == old(lastDosing) && pins == old(pins)
      ensures var r := PhRequest(rows, values, reading);
        r.Some? ==>
          var a := Activate(rows, values, old(lastDosing), old(chipOpen), r.value.pumpId, r.value.durationMs,
                            Some(r.value.reason), Some(r.value.sensorBefore), w);
          trace == old(trace) + a.effects
          && lastDosing == LastAfter(old(lastDosing), a.effects) && pins == PinsAfter(old(pins), a.effects)
      ensures chipOpen == old(chipOpen)
    {
      if !TruthySetting(values, "auto_dosing_enabled", true) || reading.None? {
        return;
      }
      var ph := reading.value;
      var lo := NumSetting(values, "ph_target_min", 5.8);
      if lo.None? {
        return;
      }
      if ph < lo.value {
        var _ := DoseWithFirst(rows, values, "ph_up", "ph_low", ph, w);
      } else {
        var hi := NumSetting(values, "ph_target_max", 6.2);
        if hi.None? {
          return;
        }
        if ph > hi.value {
          var _ := DoseWithFirst(rows, values, "ph_down", "ph_high", ph, w);
        }
      }
    }

    /** One more activation of a series: its effects follow those `e` of the series so far. */
    method RunNext(rows: seq<Pump>, values: map<string, Value>, q: Request, w: Outcomes,
                   ghost last0: map<string, real>, ghost pins0: map<int, int>, ghost trace0: seq<Effect>, ghost e: seq<Effect>)
      requires trace == trace0 + e && lastDosing == LastAfter(last0, e) && pins == PinsAfter(pins0, e)
      modifies this
      ensures var e' := e + ActivateRequest(rows, values, LastAfter(last0, e), chipOpen, q, w).effects;
        trace == trace0 + e' && lastDosing == LastAfter(last0, e') && pins == PinsAfter(pins0, e')
      ensures chipOpen == old(chipOpen)
    {
      ghost var a := ActivateRequest(rows, values, LastAfter(last0, e), chipOpen, q, w);
      var _ := ActivatePump(rows, values, q.pumpId, q.durationMs, Some(q.reason), Some(q.sensorBefore), w);
      ExtendSeries(trace0, last0, pins0, e, a.effects);
    }

    /**
     * `check_and_adjust_ec` on the reading it fetched: the activations
     * `EcRequests` calls for, in order; `ws[k]` is what the k-th activation meets.
     */
    method CheckAndAdjustEc(rows: seq<Pump>, values: map<string, Value>, reading: Option<real>, ws: seq<Outcomes>)
      requires |ws| >= |LEGACY_NUTRIENT_TYPES|
      modifies this
      ensures var e := RunRequests(rows, values, old(lastDosing), old(chipOpen), EcRequests(rows, values, reading), ws);
        trace == old(trace) + e && lastDosing == LastAfter(old(lastDosing), e) && pins == PinsAfter(old(pins), e)
      ensures chipOpen == old(chipOpen)
    {
      if !TruthySetting(values, "auto_dosing_enabled", true) || reading.None? {
        assert EcRequests(rows, values, reading) == [];
        return;
      }
      var lo := NumSetting(values, "ec_target_min", 1.2);
      if lo.None? || reading.value >= lo.value {
        assert EcRequests(rows, values, reading) == [];
        return;
      }
      DoseEachType(rows, values, LEGACY_NUTRIENT_TYPES, reading.value, ws);
      assert EcRequests(rows, values, reading) == FirstOfEach(rows, values, LEGACY_NUTRIENT_TYPES, reading.value);
    }

    /** The effects of the requests `done` have been applied on top of the state (`trace0`, `last0`, `pins0`). */
    ghost predicate Reflects(rows: seq<Pump>, values: map<string, Value>, last0: map<string, real>, pins0: map<int, int>,
                             trace0: seq<Effect>, done: seq<Request>, ws: seq<Outcomes>)
      reads this
    {
      |ws| >= |done|
      && var e := RunRequests(rows, values, last0, chipOpen, done, ws);
      trace == trace0 + e && lastDosing == LastAfter(last0, e) && pins == PinsAfter(pins0, e)
    }

    /** The loop over `kinds` has handled `kinds[..i]`, or has stopped, having made the requests `done`. */
    ghost predicate Walked(rows: seq<Pump>, values: map<string, Value>, kinds: seq<string>, ec: real, ws: seq<Outcomes>,
                           i: int, done: seq<Request>, stopped: bool,
                           last0: map<string, real>, pins0: map<int, int>, trace0: seq<Effect>)
      reads this
    {
      0 <= i <= |kinds| && |done| <= i && |ws| >= |kinds|
      && (!stopped ==> FirstOfEach(rows, values, kinds, ec) == done + FirstOfEach(rows, values, kinds[i..], ec))
      && (stopped ==> FirstOfEach(rows, values, kinds, ec) == done)
      && Reflects(rows, values, last0, pins0, trace0, done, ws)
    }

    /** One pass of the loop over the types: dose with the type's first enabled pump, if any. */
    method VisitType(rows: seq<Pump>, values: map<string, Value>, kind: string, ec: real, ws: seq<Outcomes>,
                     done: seq<Request>, ghost last0: map<string, real>, ghost pins0: map<int, int>, ghost trace0: seq<Effect>)
      returns (done': seq<Request>, stop: bool)
      requires |ws| > |done|
      requires Reflects(rows, values, last0, pins0, trace0, done, ws)
      modifies this
      ensures |done'| <= |done| + 1
      ensures Reflects(rows, values, last0, pins0, trace0, done', ws)
      ensures Visited(rows, values, kind, ec, done, done', stop)
      ensures chipOpen == old(chipOpen)
    {
      var ps := ByType(rows, kind);
      if ps == [] {
        return done, false;
      }
      var ms := DurationFor(ps[0], DoseAmount(values, kind));
      if ms.None? {
        return done, true;
      }
      var q := Request(ps[0].id, ms.value, "ec_low", ec);
      RunRequestsSnoc(rows, values, last0, chipOpen, done, q, ws);
      RunNext(rows, values, q, ws[|done|], last0, pins0, trace0, RunRequests(rows, values, last0, chipOpen, done, ws));
      done' := done + [q];
      stop := false;
    }

    /** The body of the loop over the types, with the progress it makes. */
    method WalkType(rows: seq<Pump>, values: map<string, Value>, kinds: seq<string>, ec: real, ws: seq<Outcomes>,
                    i: int, done: seq<Request>, ghost last0: map<string, real>, ghost pins0: map<int, int>, ghost trace0: seq<Effect>)
      returns (done': seq<Request>, stop: bool)
      requires i < |kinds| && Walked(rows, values, kinds, ec, ws, i, done, false, last0, pins0, trace0)
      modifies this
      ensures Walked(rows, values, kinds, ec, ws, i + 1, done', stop, last0, pins0, trace0)
      ensures chipOpen == old(chipOpen)
    {
      done', stop := VisitType(rows, values, kinds[i], ec, ws, done, last0, pins0, trace0);
      WalkStep(rows, values, kinds, i, ec, done, done', stop);
    }

    /** The loop of `check_and_adjust_ec` over the types `kinds`, with EC `ec` below the minimum. */
    method DoseEachType(rows: seq<Pump>, values: map<string, Value>, kinds: seq<string>, ec: real, ws: seq<Outcomes>)
      requires |ws| >= |kinds|
      modifies this
      ensures var e := RunRequests(rows, values, old(lastDosing), old(chipOpen), FirstOfEach(rows, values, kinds, ec), ws);
        trace == old(trace) + e && lastDosing == LastAfter(old(lastDosing), e) && pins == PinsAfter(old(pins), e)
      ensures chipOpen == old(chipOpen)
    {
      var done: seq<Request> := [];
      ghost var last0, pins0, trace0 := lastDosing, pins, trace;
      var i := 0;
      var stopped := false;
      assert kinds[0..] == kinds;
      SeqAppendEmpty(trace0);
      assert Walked(rows, values, kinds, ec, ws, 0, done, false, last0, pins0, trace0);
      while i < |kinds| && !stopped
        invariant Walked(rows, values, kinds, ec, ws, i, done, stopped, last0, pins0, trace0)
        invariant chipOpen == old(chipOpen)
      {
        done, stopped := WalkType(rows, values, kinds, ec, ws, i, done, last0, pins0, trace0);
        i := i + 1;
      }
      if !stopped {
        assert kinds[i..] == [];
        SeqAppendEmpty(done);
      }
    }
}

}
