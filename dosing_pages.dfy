/**
 * The rules of the dosing pages: adding, editing and calibrating a pump,
 * the pump test, the dosing settings form (with its setpoint override from
 * the chosen plant profile), and adding, editing, deleting and duplicating
 * plant profiles from those pages.
 */
module DosingPages {
  import opened Common
  import opened SettingsStore
  import opened PumpModel
  import AutoConfig
  import Garden
  import PumpApi
  import DosingManager

  // ---------------------------------------------------------------------
  // add_pump / edit_pump
  // ---------------------------------------------------------------------

  /** The pump form; `enabled` is whether its checkbox was ticked. */
  datatype PumpForm = PumpForm(name: Option<string>, kind: Option<string>, gpioPin: Option<int>, flowRate: Option<real>, enabled: bool)

  /** `not name or not pump_type or not gpio_pin or flow_rate is None` is false: pin 0 counts as missing, flow 0 does not. */
  predicate FormComplete(f: PumpForm)
  {
    Filled(f.name) && Filled(f.kind) && f.gpioPin.Some? && f.gpioPin.value != 0 && f.flowRate.Some?
  }

  /** `Pump.query.filter_by(gpio_pin=pin).first()`: the first pump in table order on that pin. */
  function FirstOnPin(rows: seq<Pump>, pin: int): (r: Option<Pump>)
    ensures r.Some? ==> r.value in rows && r.value.gpioPin == pin
    ensures r.None? <==> forall p :: p in rows ==> p.gpioPin != pin
    ensures rows != [] && rows[0].gpioPin == pin ==> r == Some(rows[0])
  {
    if rows == [] then None
    else if rows[0].gpioPin == pin then Some(rows[0])
    else FirstOnPin(rows[1..], pin)
  }

  /** No two pumps share a GPIO pin. */
  predicate PinsDistinct(rows: seq<Pump>)
  {
    forall i, j :: 0 <= i < j < |rows| ==> rows[i].gpioPin != rows[j].gpioPin
  }

  datatype PumpOutcome = FieldsMissing | PinTaken(holder: string) | NoSuchPump | Saved(id: int)

  /** `add_pump`: the outcome, with the id SQLite gives the new row. */
  function AddPumpDecision(rows: seq<Pump>, f: PumpForm): PumpOutcome
  {
    if !FormComplete(f) then FieldsMissing
    else match FirstOnPin(rows, f.gpioPin.value)
      case Some(holder) => PinTaken(holder.name)
      case None => Saved(NextId(rows))
  }

  /** The row `add_pump` stores: the form's fields, enabled. */
  function FormPump(f: PumpForm): Pump
    requires FormComplete(f)
  {
    NewPump(f.name.value, f.kind.value, f.gpioPin.value, f.flowRate.value)
  }

  /** A pump is added exactly when the form is complete and its pin is free; it starts enabled. */
  lemma AddPumpRules(rows: seq<Pump>, f: PumpForm)
    ensures AddPumpDecision(rows, f).Saved? <==> FormComplete(f) && forall p :: p in rows ==> p.gpioPin != f.gpioPin.value
    ensures AddPumpDecision(rows, f).Saved? ==> FormPump(f).enabled && FormPump(f).gpioPin == f.gpioPin.value
    ensures AddPumpDecision(rows, f).PinTaken? ==> exists p :: p in rows && p.gpioPin == f.gpioPin.value && p.name == AddPumpDecision(rows, f).holder
  {
  }

  /** Adding a pump through this page keeps pins distinct. */
  lemma AddKeepsPinsDistinct(rows: seq<Pump>, f: PumpForm)
    requires PinsDistinct(rows) && AddPumpDecision(rows, f).Saved?
    ensures PinsDistinct(rows + [FormPump(f).(id := NextId(rows))])
  {
    var r := rows + [FormPump(f).(id := NextId(rows))];
    forall i, j | 0 <= i < j < |r|
      ensures r[i].gpioPin != r[j].gpioPin
    {
      if j == |rows| {
        assert r[i] in rows;
      }
    }
  }

  /** `POST /dosing/pumps/add`. */
  method AddPump(table: PumpTable, f: PumpForm) returns (outcome: PumpOutcome)
    requires table.Valid()
    modifies table
    ensures table.Valid()
    ensures outcome == AddPumpDecision(old(table.rows), f)
    ensures table.rows == (if outcome.Saved? then old(table.rows) + [FormPump(f).(id := outcome.id)] else old(table.rows))
  {
    if !FormComplete(f) {
      return FieldsMissing;
    }
    var holder := FirstOnPin(table.rows, f.gpioPin.value);
    if holder.Some? {
      return PinTaken(holder.value.name);
    }
    var id := table.Insert(FormPump(f));
    outcome := Saved(id);
  }

  /** `edit_pump`: 404 first, then the form, then the first pump on the new pin must be this one. */
  function EditPumpDecision(rows: seq<Pump>, id: int, f: PumpForm): PumpOutcome
  {
    if Find(rows, id).None? then NoSuchPump
    else if !FormComplete(f) then FieldsMissing
    else match FirstOnPin(rows, f.gpioPin.value)
      case Some(holder) => if holder.id != id then PinTaken(holder.name) else Saved(id)
      case None => Saved(id)
  }

  /** The edited pump: name, type, pin, flow rate and enabled overwritten; the nutrient fields kept. */
  function Edited(p: Pump, f: PumpForm): Pump
    requires FormComplete(f)
  {
    p.(name := f.name.value, kind := f.kind.value, gpioPin := f.gpioPin.value, flowRate := f.flowRate.value, enabled := f.enabled)
  }

  /** The table after `edit_pump`. */
  function EditedRows(rows: seq<Pump>, id: int, f: PumpForm): seq<Pump>
  {
    if EditPumpDecision(rows, id, f).Saved? then PumpApi.Put(rows, Edited(Find(rows, id).value, f)) else rows
  }

  /** With distinct pins, an edit is refused exactly when another pump holds the new pin, and pins stay distinct. */
  lemma EditKeepsPinsDistinct(rows: seq<Pump>, id: int, f: PumpForm)
    requires PinsDistinct(rows) && UniqueIds(rows) && Find(rows, id).Some? && FormComplete(f)
    ensures EditPumpDecision(rows, id, f).Saved? <==> forall q :: q in rows && q.id != id ==> q.gpioPin != f.gpioPin.value
    ensures PinsDistinct(EditedRows(rows, id, f))
  {
    var pin := f.gpioPin.value;
    var h := FirstOnPin(rows, pin);
    if h.Some? && h.value.id == id {
      forall q | q in rows && q.id != id
        ensures q.gpioPin != pin
      {
        var i :| 0 <= i < |rows| && rows[i] == q;
        var j :| 0 <= j < |rows| && rows[j] == h.value;
        assert i != j;
      }
    }
    if EditPumpDecision(rows, id, f).Saved? {
      var r := EditedRows(rows, id, f);
      var q := Edited(Find(rows, id).value, f);
      forall i, j | 0 <= i < j < |r|
        ensures r[i].gpioPin != r[j].gpioPin
      {
        if rows[i].id == id {
          assert rows[j].id != id;
          assert rows[j] in rows;
        } else if rows[j].id == id {
          assert rows[i] in rows;
        }
      }
    }
  }

  /**
   * Only the first holder of a pin is compared: when two pumps already share
   * a pin (the JSON API allows that), editing the first of them onto that pin
   * is accepted although another pump still holds it.
   */
  lemma EditChecksFirstHolderOnly()
    ensures var a, b := NewPump("A", "nutrient", 5, 1.0).(id := 1), NewPump("B", "nutrient", 5, 1.0).(id := 2);
      EditPumpDecision([a, b], 1, PumpForm(Some("A"), Some("nutrient"), Some(5), Some(1.0), true)) == Saved(1)
      && !EditPumpDecision([a, b], 2, PumpForm(Some("B"), Some("nutrient"), Some(5), Some(1.0), true)).Saved?
  {
  }

  /** `POST /dosing/pumps/edit/<id>`. */
  method EditPump(table: PumpTable, id: int, f: PumpForm) returns (outcome: PumpOutcome)
    requires table.Valid()
    modifies table
    ensures table.Valid()
    ensures outcome == EditPumpDecision(old(table.rows), id, f)
    ensures table.rows == EditedRows(old(table.rows), id, f)
  {
    outcome := EditPumpDecision(table.rows, id, f);
    if outcome.Saved? {
      var q := Edited(Find(table.rows, id).value, f);
      PumpApi.PutKeepsIds(table.rows, q);
      table.rows := PumpApi.Put(table.rows, q);
    }
  }

  // ---------------------------------------------------------------------
  // calibrate_pump / test_pump
  // ---------------------------------------------------------------------

  datatype Calibration = PumpUnknown | InputsMissing | Calibrated(flowRate: real)

  /** `calibrate_pump`: flow rate = measured volume / (duration in seconds); a missing or zero input is refused. */
  function CalibrationOf(rows: seq<Pump>, id: int, durationMs: Option<int>, volume: Option<real>): Calibration
  {
    if Find(rows, id).None? then PumpUnknown
    else if durationMs.None? || durationMs.value == 0 || volume.None? || volume.value == 0.0 then InputsMissing
    else Calibrated(volume.value / (durationMs.value as real / 1000.0))
  }

  /**
   * Calibration and dosing time are inverse: after calibrating with a positive
   * volume and duration, dosing that volume takes exactly the calibration run's
   * duration, and the flow rate is positive exactly when both inputs have the same sign.
   */
  lemma CalibrationRoundTrip(rows: seq<Pump>, id: int, durationMs: Option<int>, volume: Option<real>)
    requires CalibrationOf(rows, id, durationMs, volume).Calibrated?
    ensures var f := CalibrationOf(rows, id, durationMs, volume).flowRate;
      && (f > 0.0 <==> (durationMs.value > 0 <==> volume.value > 0.0))
      && (durationMs.value > 0 && volume.value > 0.0 ==> DosingTime(f, volume.value) == durationMs.value)
  {
    var d, v := durationMs.value as real, volume.value;
    var s := d / 1000.0;
    var f := v / s;
    assert f * s == v;
    if d > 0.0 && v > 0.0 {
      assert v / f == s;
      assert v / f * 1000.0 == d;
    }
  }

  /** `POST /dosing/pumps/calibrate/<id>`. */
  method CalibratePump(table: PumpTable, id: int, durationMs: Option<int>, volume: Option<real>) returns (outcome: Calibration)
    requires table.Valid()
    modifies table
    ensures table.Valid()
    ensures outcome == CalibrationOf(old(table.rows), id, durationMs, volume)
    ensures table.rows == (if outcome.Calibrated? then PumpApi.Put(old(table.rows), Find(old(table.rows), id).value.(flowRate := outcome.flowRate))
                           else old(table.rows))
  {
    outcome := CalibrationOf(table.rows, id, durationMs, volume);
    if outcome.Calibrated? {
      var q := Find(table.rows, id).value.(flowRate := outcome.flowRate);
      PumpApi.PutKeepsIds(table.rows, q);
      table.rows := PumpApi.Put(table.rows, q);
    }
  }

  /** `test_pump`: `duration_ms` from the body, 1000 ms when absent. */
  function TestDuration(durationMs: Option<int>): (ms: int)
    ensures durationMs.None? ==> ms == 1000
    ensures durationMs.Some? ==> ms == durationMs.value
  {
    if durationMs.Some? then durationMs.value else 1000
  }

  /**
   * A test run goes through `activate_pump` with reason 'test' and no sensor
   * value: it is logged as a test and is refused under the cooldown like any dose.
   */
  lemma TestRunIsAnActivation(rows: seq<Pump>, values: map<string, Value>, lastDosing: map<string, real>,
                              chipOpen: bool, pumpId: int, durationMs: Option<int>, w: DosingManager.Outcomes)
    requires Find(rows, pumpId).Some? && Find(rows, pumpId).value.enabled && !DosingManager.NightMode(values, w.timeOfDay)
    requires var p := Find(rows, pumpId).value;
      var wait := NumSetting(values, DosingManager.WaitKey(p.kind), 60.0);
      wait.Some? && w.now - (if p.kind in lastDosing then lastDosing[p.kind] else 0.0) < wait.value
    ensures DosingManager.ReasonOrManual(Some("test")) == "test"
    ensures !DosingManager.Activate(rows, values, lastDosing, chipOpen, pumpId, TestDuration(durationMs), Some("test"), None, w).ok
  {
    DosingManager.CooldownRefusesEveryReason(rows, values, lastDosing, chipOpen, pumpId, TestDuration(durationMs), Some("test"), None, w);
  }

  // ---------------------------------------------------------------------
  // The dosing settings form
  // ---------------------------------------------------------------------

  /** The profiles the settings page seeds when none are stored: no custom flag and no ratios. */
  function SeededProfile(name: string, description: string, ph: real, ec: real, ecBuffer: real, tempMin: real, tempMax: real): Profile
  {
    Profile(Some(name), Some(description), Some(ph), Some(0.2), Some(ec), Some(ecBuffer), Some(tempMin), Some(tempMax),
            None, None, None, None, None, None, None)
  }

  function SeededProfiles(): (ps: map<string, Profile>)
    ensures ps.Keys == set id | id in BUILT_IN_IDS
  {
    map[
      "general" := SeededProfile("General Purpose", "General purpose profile suitable for most plants", 6.0, 1350.0, 150.0, 18.0, 28.0),
      "leafy_greens" := SeededProfile("Leafy Greens", "Optimized for lettuce, spinach, kale and other leafy vegetables", 6.0, 1000.0, 100.0, 18.0, 24.0),
      "fruiting" := SeededProfile("Fruiting Plants", "For tomatoes, peppers, cucumbers and other fruiting plants", 6.0, 1800.0, 150.0, 20.0, 28.0),
      "herbs" := SeededProfile("Herbs", "Ideal for basil, cilantro, parsley and other herbs", 5.8, 1200.0, 100.0, 18.0, 26.0),
      "strawberries" := SeededProfile("Strawberries", "Optimized for growing strawberries", 5.8, 1300.0, 100.0, 18.0, 26.0)
    ]
  }

  /**
   * Every seeded profile lacks 'custom' and 'nutrient_ratios', so automatic
   * configuration never gives it components, and it carries all four setpoints,
   * so selecting it on the settings form never fails.
   */
  lemma SeededProfilesSkipped()
    ensures forall id :: id in SeededProfiles() ==>
      var p := SeededProfiles()[id];
      && p.custom.None? && p.ratios.None? && AutoConfig.Skips(p)
      && p.phSetpoint.Some? && p.phBuffer.Some? && p.ecSetpoint.Some? && p.ecBuffer.Some?
  {
  }

  /** The settings form; each numeric field is None when missing or unparseable. */
  datatype SettingsForm = SettingsForm(
    autoDosing: bool,
    nightMode: bool,
    activeProfile: Option<string>,
    phSetpoint: Option<real>,
    phBuffer: Option<real>,
    phDose: Option<real>,
    phInterval: Option<int>,
    phWait: Option<int>,
    ecSetpoint: Option<real>,
    ecBuffer: Option<real>,
    ecDose: Option<real>,
    ecInterval: Option<int>,
    ecWait: Option<int>,
    nightStart: Option<string>,
    nightEnd: Option<string>)

  /** `Settings.get(key)` without a default. */
  function Stored(values: map<string, Value>, key: string): Option<Value>
  {
    if key in values then Some(values[key]) else None
  }

  /** Python's `x == Settings.get(key)` for a float x: booleans compare as 1 and 0, text and None never equal. */
  predicate PyEquals(x: real, v: Option<Value>)
  {
    v.Some? && match v.value
      case Num(n) => n == x
      case Flag(b) => (if b then 1.0 else 0.0) == x
      case Text(_) => false
  }

  /** The form value is missing or repeats the current setting, so the profile's value is taken. */
  predicate Adopts(x: Option<real>, current: Option<Value>)
  {
    x.None? || PyEquals(x.value, current)
  }

  /** The four setpoints written after the override; None from the profile means a missing key. */
  datatype Setpoints = Setpoints(phSetpoint: Option<real>, phBuffer: Option<real>, ecSetpoint: Option<real>, ecBuffer: Option<real>)

  /** One field of the override: the profile's value when adopted (None when the profile lacks the key). */
  function Choose(x: Option<real>, current: Option<Value>, fromProfile: Option<real>): Option<Option<real>>
  {
    if !Adopts(x, current) then Some(x)
    else if fromProfile.Some? then Some(fromProfile)
    else None
  }

  /**
   * The setpoints to write: the form's, overridden field by field from the
   * chosen profile when it exists; None when an adopted key is missing from the
   * profile (a KeyError that ends the request).
   */
  function Override(values: map<string, Value>, ps: map<string, Profile>, f: SettingsForm): Option<Setpoints>
  {
    if !Filled(f.activeProfile) || f.activeProfile.value !in ps then Some(Setpoints(f.phSetpoint, f.phBuffer, f.ecSetpoint, f.ecBuffer))
    else
      var p := ps[f.activeProfile.value];
      var ph := Choose(f.phSetpoint, Stored(values, "ph_setpoint"), p.phSetpoint);
      var phb := Choose(f.phBuffer, Stored(values, "ph_buffer"), p.phBuffer);
      var ec := Choose(f.ecSetpoint, Stored(values, "ec_setpoint"), p.ecSetpoint);
      var ecb := Choose(f.ecBuffer, Stored(values, "ec_buffer"), p.ecBuffer);
      if ph.None? || phb.None? || ec.None? || ecb.None? then None
      else Some(Setpoints(ph.value, phb.value, ec.value, ecb.value))
  }

  function PutNum(values: map<string, Value>, key: string, x: Option<real>): (r: map<string, Value>)
    ensures x.Some? ==> r == values[key := Num(x.value)]
    ensures x.None? ==> r == values
  {
    if x.Some? then values[key := Num(x.value)] else values
  }

  function PutInt(values: map<string, Value>, key: string, x: Option<int>): map<string, Value>
  {
    PutNum(values, key, if x.Some? then Some(x.value as real) else None)
  }

  function PutText(values: map<string, Value>, key: string, s: Option<string>): (r: map<string, Value>)
    ensures Filled(s) ==> r == values[key := Text(s.value)]
    ensures !Filled(s) ==> r == values
  {
    if Filled(s) then values[key := Text(s.value)] else values
  }

  /** The pH writes after the override, in the handler's order; each only when there is a value. */
  function PhWrites(values: map<string, Value>, f: SettingsForm, s: Setpoints): map<string, Value>
  {
    var v := PutNum(PutNum(values, "ph_setpoint", s.phSetpoint), "ph_buffer", s.phBuffer);
    PutInt(PutInt(PutNum(v, "ph_dose_amount", f.phDose), "ph_check_interval", f.phInterval), "ph_dose_wait_time", f.phWait)
  }

  /** The EC writes. */
  function EcWrites(values: map<string, Value>, f: SettingsForm, s: Setpoints): map<string, Value>
  {
    var v := PutNum(PutNum(values, "ec_setpoint", s.ecSetpoint), "ec_buffer", s.ecBuffer);
    PutInt(PutInt(PutNum(v, "ec_dose_amount", f.ecDose), "ec_check_interval", f.ecInterval), "ec_dose_wait_time", f.ecWait)
  }

  /** All writes after the override: pH, EC, then the night window when given. */
  function Written(values: map<string, Value>, f: SettingsForm, s: Setpoints): map<string, Value>
  {
    PutText(PutText(EcWrites(PhWrites(values, f, s), f, s), "night_mode_start", f.nightStart), "night_mode_end", f.nightEnd)
  }

  /** The values after seeding and the two switches and the profile choice are written. */
  function Prepared(values: map<string, Value>, profiles: Option<map<string, Profile>>, f: SettingsForm): map<string, Value>
  {
    var v := if ProfilesFalsy(profiles) then values[ACTIVE_PROFILE_KEY := Text("general")] else values;
    var v := v["auto_dosing_enabled" := Flag(f.autoDosing)]["night_mode_enabled" := Flag(f.nightMode)];
    PutText(v, ACTIVE_PROFILE_KEY, f.activeProfile)
  }

  function ProfilesAfterSeeding(profiles: Option<map<string, Profile>>): Option<map<string, Profile>>
  {
    if ProfilesFalsy(profiles) then Some(SeededProfiles()) else profiles
  }

  const PH_KEYS: set<string> := {"ph_setpoint", "ph_buffer", "ph_dose_amount", "ph_check_interval", "ph_dose_wait_time"}
  const EC_KEYS: set<string> := {"ec_setpoint", "ec_buffer", "ec_dose_amount", "ec_check_interval", "ec_dose_wait_time"}

  lemma PhWritesReads(v: map<string, Value>, f: SettingsForm, s: Setpoints, k: string)
    ensures k !in PH_KEYS ==> Stored(PhWrites(v, f, s), k) == Stored(v, k)
    ensures Stored(PhWrites(v, f, s), "ph_setpoint") == if s.phSetpoint.Some? then Some(Num(s.phSetpoint.value)) else Stored(v, "ph_setpoint")
    ensures Stored(PhWrites(v, f, s), "ph_dose_amount") == if f.phDose.Some? then Some(Num(f.phDose.value)) else Stored(v, "ph_dose_amount")
  {
  }

  lemma EcWritesReads(v: map<string, Value>, f: SettingsForm, s: Setpoints, k: string)
    ensures k !in EC_KEYS ==> Stored(EcWrites(v, f, s), k) == Stored(v, k)
    ensures Stored(EcWrites(v, f, s), "ec_setpoint") == if s.ecSetpoint.Some? then Some(Num(s.ecSetpoint.value)) else Stored(v, "ec_setpoint")
    ensures Stored(EcWrites(v, f, s), "ec_dose_amount") == if f.ecDose.Some? then Some(Num(f.ecDose.value)) else Stored(v, "ec_dose_amount")
  {
  }

  lemma NightWritesKeep(v: map<string, Value>, f: SettingsForm, k: string)
    requires k != "night_mode_start" && k != "night_mode_end"
    ensures Stored(PutText(PutText(v, "night_mode_start", f.nightStart), "night_mode_end", f.nightEnd), k) == Stored(v, k)
  {
  }

  /** What the writes leave under a few of the keys: the written value, or the old one when there was none. */
  lemma WrittenReads(v: map<string, Value>, f: SettingsForm, s: Setpoints)
    ensures Stored(Written(v, f, s), "ph_setpoint") == if s.phSetpoint.Some? then Some(Num(s.phSetpoint.value)) else Stored(v, "ph_setpoint")
    ensures Stored(Written(v, f, s), "ec_setpoint") == if s.ecSetpoint.Some? then Some(Num(s.ecSetpoint.value)) else Stored(v, "ec_setpoint")
    ensures Stored(Written(v, f, s), "ph_dose_amount") == if f.phDose.Some? then Some(Num(f.phDose.value)) else Stored(v, "ph_dose_amount")
    ensures Stored(Written(v, f, s), "ec_dose_amount") == if f.ecDose.Some? then Some(Num(f.ecDose.value)) else Stored(v, "ec_dose_amount")
    ensures Stored(Written(v, f, s), "auto_dosing_enabled") == Stored(v, "auto_dosing_enabled")
    ensures Stored(Written(v, f, s), "night_mode_enabled") == Stored(v, "night_mode_enabled")
  {
    var ph := PhWrites(v, f, s);
    var ec := EcWrites(ph, f, s);
    NightWritesKeep(ec, f, "ph_setpoint");
    NightWritesKeep(ec, f, "ec_setpoint");
    NightWritesKeep(ec, f, "ph_dose_amount");
    NightWritesKeep(ec, f, "ec_dose_amount");
    NightWritesKeep(ec, f, "auto_dosing_enabled");
    NightWritesKeep(ec, f, "night_mode_enabled");
    PhWritesReads(v, f, s, "ec_setpoint");
    PhWritesReads(v, f, s, "ec_dose_amount");
    PhWritesReads(v, f, s, "auto_dosing_enabled");
    PhWritesReads(v, f, s, "night_mode_enabled");
    EcWritesReads(ph, f, s, "ph_setpoint");
    EcWritesReads(ph, f, s, "ph_dose_amount");
    EcWritesReads(ph, f, s, "auto_dosing_enabled");
    EcWritesReads(ph, f, s, "night_mode_enabled");
  }

  /** The setpoints chosen by the override, field by field. */
  lemma OverrideChoice(values: map<string, Value>, ps: map<string, Profile>, f: SettingsForm)
    requires Override(values, ps, f).Some?
    ensures var s, chosen := Override(values, ps, f).value, Filled(f.activeProfile) && f.activeProfile.value in ps;
      && s.phSetpoint == (if chosen && Adopts(f.phSetpoint, Stored(values, "ph_setpoint")) then ps[f.activeProfile.value].phSetpoint else f.phSetpoint)
      && s.ecSetpoint == (if chosen && Adopts(f.ecSetpoint, Stored(values, "ec_setpoint")) then ps[f.activeProfile.value].ecSetpoint else f.ecSetpoint)
      && (chosen && Adopts(f.phSetpoint, Stored(values, "ph_setpoint")) ==> s.phSetpoint.Some?)
      && (chosen && Adopts(f.ecSetpoint, Stored(values, "ec_setpoint")) ==> s.ecSetpoint.Some?)
  {
  }

  /** Seeding and the switches leave the setpoints and dose amounts as they were. */
  lemma PreparedKeeps(values: map<string, Value>, profiles: Option<map<string, Profile>>, f: SettingsForm, key: string)
    requires key in {"ph_setpoint", "ec_setpoint", "ph_dose_amount", "ec_dose_amount"}
    ensures Stored(Prepared(values, profiles, f), key) == Stored(values, key)
    ensures Stored(Prepared(values, profiles, f), "auto_dosing_enabled") == Some(Flag(f.autoDosing))
    ensures Stored(Prepared(values, profiles, f), "night_mode_enabled") == Some(Flag(f.nightMode))
  {
  }

  /**
   * A form setpoint that is missing, or equal to the current setting, is replaced
   * by the chosen profile's value, which then exists.
   */
  lemma SettingsOverrideAdopts(values: map<string, Value>, profiles: Option<map<string, Profile>>, f: SettingsForm)
    requires Override(Prepared(values, profiles, f), ProfilesAfterSeeding(profiles).GetOr(map[]), f).Some?
    requires Filled(f.activeProfile) && f.activeProfile.value in ProfilesAfterSeeding(profiles).GetOr(map[])
    ensures var p := ProfilesAfterSeeding(profiles).GetOr(map[])[f.activeProfile.value];
      var r := Written(Prepared(values, profiles, f), f, Override(Prepared(values, profiles, f), ProfilesAfterSeeding(profiles).GetOr(map[]), f).value);
      && (Adopts(f.phSetpoint, Stored(values, "ph_setpoint")) ==>
            p.phSetpoint.Some? && Stored(r, "ph_setpoint") == Some(Num(p.phSetpoint.value)))
      && (Adopts(f.ecSetpoint, Stored(values, "ec_setpoint")) ==>
            p.ecSetpoint.Some? && Stored(r, "ec_setpoint") == Some(Num(p.ecSetpoint.value)))
  {
    var ps := ProfilesAfterSeeding(profiles).GetOr(map[]);
    var v := Prepared(values, profiles, f);
    PreparedKeeps(values, profiles, f, "ph_setpoint");
    PreparedKeeps(values, profiles, f, "ec_setpoint");
    OverrideChoice(v, ps, f);
    WrittenReads(v, f, Override(v, ps, f).value);
  }

  /**
   * A setpoint the user changed is kept; with no profile chosen a missing pH setpoint
   * leaves the stored one; a dose amount left blank keeps its stored value; both
   * switches are written.
   */
  lemma SettingsOverrideKeeps(values: map<string, Value>, profiles: Option<map<string, Profile>>, f: SettingsForm)
    requires Override(Prepared(values, profiles, f), ProfilesAfterSeeding(profiles).GetOr(map[]), f).Some?
    ensures var ps := ProfilesAfterSeeding(profiles).GetOr(map[]);
      var r := Written(Prepared(values, profiles, f), f, Override(Prepared(values, profiles, f), ps, f).value);
      && (f.phSetpoint.Some? && !Adopts(f.phSetpoint, Stored(values, "ph_setpoint")) ==> Stored(r, "ph_setpoint") == Some(Num(f.phSetpoint.value)))
      && (f.ecSetpoint.Some? && !Adopts(f.ecSetpoint, Stored(values, "ec_setpoint")) ==> Stored(r, "ec_setpoint") == Some(Num(f.ecSetpoint.value)))
      && (f.phSetpoint.None? && (!Filled(f.activeProfile) || f.activeProfile.value !in ps) ==> Stored(r, "ph_setpoint") == Stored(values, "ph_setpoint"))
      && (f.phDose.None? ==> Stored(r, "ph_dose_amount") == Stored(values, "ph_dose_amount"))
      && (f.ecDose.None? ==> Stored(r, "ec_dose_amount") == Stored(values, "ec_dose_amount"))
      && Stored(r, "auto_dosing_enabled") == Some(Flag(f.autoDosing)) && Stored(r, "night_mode_enabled") == Some(Flag(f.nightMode))
  {
    var ps := ProfilesAfterSeeding(profiles).GetOr(map[]);
    var v := Prepared(values, profiles, f);
    PreparedKeeps(values, profiles, f, "ph_setpoint");
    PreparedKeeps(values, profiles, f, "ec_setpoint");
    PreparedKeeps(values, profiles, f, "ph_dose_amount");
    PreparedKeeps(values, profiles, f, "ec_dose_amount");
    OverrideChoice(v, ps, f);
    WrittenReads(v, f, Override(v, ps, f).value);
  }

  /** A profile missing an adopted setpoint ends the request, after the switches and the choice were already saved. */
  lemma SettingsMissingKeyFails(values: map<string, Value>, profiles: Option<map<string, Profile>>, f: SettingsForm)
    requires Filled(f.activeProfile) && f.activeProfile.value in ProfilesAfterSeeding(profiles).GetOr(map[])
    requires f.phSetpoint.None? && ProfilesAfterSeeding(profiles).GetOr(map[])[f.activeProfile.value].phSetpoint.None?
    ensures Override(Prepared(values, profiles, f), ProfilesAfterSeeding(profiles).GetOr(map[]), f).None?
    ensures Prepared(values, profiles, f)[ACTIVE_PROFILE_KEY] == Text(f.activeProfile.value)
  {
  }

  /** Selecting a seeded profile never fails. */
  lemma SeededSelectionSucceeds(values: map<string, Value>, f: SettingsForm)
    requires Filled(f.activeProfile)
    ensures Override(Prepared(values, None, f), SeededProfiles(), f).Some?
  {
    SeededProfilesSkipped();
  }

  /** `POST /dosing/settings`; `ok` is false when a KeyError ends it. The rescheduling that follows is not modelled. */
  method DosingSettings(store: Store, f: SettingsForm) returns (ok: bool)
    modifies store
    ensures store.profiles == ProfilesAfterSeeding(old(store.profiles))
    ensures store.incompatibilities == old(store.incompatibilities)
    ensures var prepared := Prepared(old(store.values), old(store.profiles), f);
      var s := Override(prepared, store.ProfileMap(), f);
      && ok == s.Some?
      && store.values == (if ok then Written(prepared, f, s.value) else prepared)
  {
    if ProfilesFalsy(store.profiles) {
      store.profiles := Some(SeededProfiles());
      store.Set(ACTIVE_PROFILE_KEY, Text("general"));
    }
    store.Set("auto_dosing_enabled", Flag(f.autoDosing));
    store.Set("night_mode_enabled", Flag(f.nightMode));
    if Filled(f.activeProfile) {
      store.Set(ACTIVE_PROFILE_KEY, Text(f.activeProfile.value));
    }
    var s := Override(store.values, store.ProfileMap(), f);
    if s.None? {
      return false;
    }
    store.values := Written(store.values, f, s.value);
    ok := true;
  }

  // ---------------------------------------------------------------------
  // Profiles from the dosing pages
  // ---------------------------------------------------------------------

  /** The profile form; numeric fields are None when missing or unparseable. */
  datatype ProfileForm = ProfileForm(
    name: Option<string>,
    description: Option<string>,
    phSetpoint: Option<real>,
    phBuffer: Option<real>,
    ecSetpoint: Option<real>,
    ecBuffer: Option<real>,
    tempMin: Option<real>,
    tempMax: Option<real>)

  /** `x or default`: a missing value and 0 both give the default. */
  function OrElse(x: Option<real>, default: real): (r: real)
    ensures x.Some? && x.value != 0.0 ==> r == x.value
    ensures x.None? || x.value == 0.0 ==> r == default
  {
    if x.Some? && x.value != 0.0 then x.value else default
  }

  /** The id of a profile created from these pages: "custom_" and the creation time as digits. */
  function CustomId(stamp: string): string
  {
    "custom_" + stamp
  }

  lemma CustomIdNotBuiltIn(stamp: string)
    ensures CustomId(stamp) !in BUILT_IN_IDS
  {
    assert CustomId(stamp)[0] == 'c';
  }

  /** The form written over a profile: the eight form fields with their defaults. */
  function FromForm(p: Profile, f: ProfileForm): Profile
    requires Filled(f.name)
  {
    var name := f.name.value;
    p.(name := Some(name),
       description := Some(if Filled(f.description) then f.description.value else "Custom profile for " + name),
       phSetpoint := Some(OrElse(f.phSetpoint, 6.0)), phBuffer := Some(OrElse(f.phBuffer, 0.2)),
       ecSetpoint := Some(OrElse(f.ecSetpoint, 1350.0)), ecBuffer := Some(OrElse(f.ecBuffer, 150.0)),
       tempMin := Some(OrElse(f.tempMin, 18.0)), tempMax := Some(OrElse(f.tempMax, 28.0)))
  }

  /** A profile with no keys at all. */
  function Blank(): Profile
  {
    Profile(None, None, None, None, None, None, None, None, None, None, None, None, None, None, None)
  }

  /** `add_profile` on these pages: the profiles to store, None when the name is missing. */
  function AddProfileSpec(ps: map<string, Profile>, f: ProfileForm, stamp: string): Option<map<string, Profile>>
  {
    if !Filled(f.name) then None else Some(ps[CustomId(stamp) := FromForm(Blank(), f).(custom := Some(true))])
  }

  /**
   * A new profile is custom, has no ratios (so automatic configuration leaves
   * it alone), never takes a built-in id, and can be deleted again, which
   * restores the profiles when the id was new.
   */
  lemma AddedProfileRules(ps: map<string, Profile>, values: map<string, Value>, f: ProfileForm, stamp: string)
    requires Filled(f.name)
    ensures var next := AddProfileSpec(ps, f, stamp).value;
      var p := next[CustomId(stamp)];
      && p.custom == Some(true) && p.ratios.None? && AutoConfig.Skips(p)
      && p.name == f.name && p.phSetpoint == Some(OrElse(f.phSetpoint, 6.0)) && p.ecSetpoint == Some(OrElse(f.ecSetpoint, 1350.0))
      && CustomId(stamp) !in BUILT_IN_IDS
      && DeleteProfileSpec(next, values, CustomId(stamp)).0 == Deleted
      && (CustomId(stamp) !in ps ==> DeleteProfileSpec(next, values, CustomId(stamp)).1 == ps)
  {
    CustomIdNotBuiltIn(stamp);
    var next := AddProfileSpec(ps, f, stamp).value;
    if CustomId(stamp) !in ps {
      assert next - {CustomId(stamp)} == ps;
    }
  }

  /** `POST /dosing/profiles/add`, with the creation time as `stamp`. */
  method AddProfile(store: Store, f: ProfileForm, stamp: string) returns (added: bool)
    modifies store
    ensures added == Filled(f.name)
    ensures store.profiles == (if added then AddProfileSpec(old(store.ProfileMap()), f, stamp) else old(store.profiles))
    ensures store.values == old(store.values) && store.incompatibilities == old(store.incompatibilities)
  {
    if !Filled(f.name) {
      return false;
    }
    var ps := store.ProfileMap();
    store.profiles := Some(ps[CustomId(stamp) := FromForm(Blank(), f).(custom := Some(true))]);
    added := true;
  }

  datatype EditOutcome = ProfileMissing | BuiltInRefused | NameRequired | ProfileSaved

  /** `edit_profile`: missing, then built-in, then a missing name; otherwise the form fields overwrite the profile. */
  function EditProfileSpec(ps: map<string, Profile>, id: string, f: ProfileForm): (EditOutcome, map<string, Profile>)
  {
    if id !in ps then (ProfileMissing, ps)
    else if id in BUILT_IN_IDS then (BuiltInRefused, ps)
    else if !Filled(f.name) then (NameRequired, ps)
    else (ProfileSaved, ps[id := FromForm(ps[id], f)])
  }

  /** Built-in profiles are never edited; an edit keeps every key the form does not carry. */
  lemma EditProfileRules(ps: map<string, Profile>, id: string, f: ProfileForm)
    ensures id in BUILT_IN_IDS ==> EditProfileSpec(ps, id, f).1 == ps
    ensures var (o, next) := EditProfileSpec(ps, id, f);
      o == ProfileSaved ==>
        && next.Keys == ps.Keys
        && next[id].custom == ps[id].custom && next[id].ratios == ps[id].ratios
        && next[id].components == ps[id].components && next[id].weekly == ps[id].weekly
        && next[id].name == f.name
        && forall k :: k in ps && k != id ==> next[k] == ps[k]
  {
  }

  /** `POST /dosing/profiles/edit/<id>`. */
  method EditProfile(store: Store, id: string, f: ProfileForm) returns (outcome: EditOutcome)
    modifies store
    ensures var (o, next) := EditProfileSpec(old(store.ProfileMap()), id, f);
      outcome == o && store.profiles == (if o == ProfileSaved then Some(next) else old(store.profiles))
    ensures store.values == old(store.values) && store.incompatibilities == old(store.incompatibilities)
  {
    var ps := store.ProfileMap();
    if id !in ps {
      return ProfileMissing;
    }
    if id in BUILT_IN_IDS {
      return BuiltInRefused;
    }
    if !Filled(f.name) {
      return NameRequired;
    }
    store.profiles := Some(ps[id := FromForm(ps[id], f)]);
    outcome := ProfileSaved;
  }

  /** What `delete_profile` decides; `NameMissing` is the KeyError of reading a profile without a name. */
  datatype DeleteOutcome = NotFound | BuiltInKept | NameMissing | Deleted

  /**
   * `delete_profile` on these pages: the outcome and the profiles to store. The
   * name is read only after the active profile may have been switched, so a
   * nameless profile ends the request with that switch saved and nothing deleted.
   */
  function DeleteProfileSpec(ps: map<string, Profile>, values: map<string, Value>, id: string): (DeleteOutcome, map<string, Profile>)
  {
    if id !in ps then (NotFound, ps)
    else if id in BUILT_IN_IDS then (BuiltInKept, ps)
    else if ps[id].name.None? then (NameMissing, ps)
    else (Deleted, ps - {id})
  }

  /** The request got past the existence and built-in checks, to the active-profile switch. */
  predicate PassedChecks(ps: map<string, Profile>, id: string)
  {
    id in ps && id !in BUILT_IN_IDS
  }

  /** The active profile after a delete: 'general' when the checks passed and the profile was the active one. */
  function ActiveAfterDelete(ps: map<string, Profile>, values: map<string, Value>, id: string): map<string, Value>
  {
    if PassedChecks(ps, id) && Garden.ActiveSetting(values) == Some(id)
    then values[ACTIVE_PROFILE_KEY := Text("general")] else values
  }

  /**
   * Any named profile but a built-in one is deleted, custom or not; a nameless
   * one fails and stays. Either way the active profile no longer names it
   * afterwards; the garden page refuses the same request for the active profile.
   */
  lemma DeleteProfileRules(ps: map<string, Profile>, values: map<string, Value>, id: string)
    ensures var (o, next) := DeleteProfileSpec(ps, values, id);
      && (o == Deleted <==> id in ps && id !in BUILT_IN_IDS && ps[id].name.Some?)
      && (o == NameMissing <==> id in ps && id !in BUILT_IN_IDS && ps[id].name.None?)
      && (o == Deleted ==> next.Keys == ps.Keys - {id} && forall k :: k in next ==> next[k] == ps[k])
      && (o != Deleted ==> next == ps)
      && (o in {Deleted, NameMissing} ==> Garden.ActiveSetting(ActiveAfterDelete(ps, values, id)) != Some(id))
      && (o !in {Deleted, NameMissing} ==> ActiveAfterDelete(ps, values, id) == values)
    ensures id in ps && id !in BUILT_IN_IDS && ps[id].name.Some? && Garden.ActiveSetting(values) == Some(id) ==>
      DeleteProfileSpec(ps, values, id).0 == Deleted && Garden.DeleteProfileSpec(ps, values, id).0 == Garden.IsActive
  {
    if PassedChecks(ps, id) && Garden.ActiveSetting(values) == Some(id) {
      assert id != "general";
    }
  }

  /** `POST /dosing/profiles/delete/<id>`. */
  method DeleteProfile(store: Store, id: string) returns (outcome: DeleteOutcome)
    modifies store
    ensures var (o, next) := DeleteProfileSpec(old(store.ProfileMap()), old(store.values), id);
      outcome == o && store.profiles == (if o == Deleted then Some(next) else old(store.profiles))
    ensures store.values == ActiveAfterDelete(old(store.ProfileMap()), old(store.values), id)
    ensures store.incompatibilities == old(store.incompatibilities)
  {
    var ps := store.ProfileMap();
    if id !in ps {
      return NotFound;
    }
    if id in BUILT_IN_IDS {
      return BuiltInKept;
    }
    if Garden.ActiveSetting(store.values) == Some(id) {
      store.Set(ACTIVE_PROFILE_KEY, Text("general"));
    }
    if ps[id].name.None? {
      return NameMissing;
    }
    store.profiles := Some(ps - {id});
    outcome := Deleted;
  }

  /** `duplicate_profile` on these pages: None when the source is missing or has no name (a KeyError). */
  function DuplicateProfileSpec(ps: map<string, Profile>, id: string, stamp: string): Option<map<string, Profile>>
  {
    if id !in ps || ps[id].name.None? then None
    else Some(ps[CustomId(stamp) := ps[id].(name := Some("Copy of " + ps[id].name.value), custom := Some(true))])
  }

  /** The copy is named "Copy of <name>", is custom, keeps everything else, and the source is untouched unless the ids collide. */
  lemma DuplicateRules(ps: map<string, Profile>, values: map<string, Value>, id: string, stamp: string)
    requires id in ps && ps[id].name.Some?
    ensures var next := DuplicateProfileSpec(ps, id, stamp).value;
      var c := next[CustomId(stamp)];
      && c.name == Some("Copy of " + ps[id].name.value)
      && c.custom == Some(true)
      && c.(name := ps[id].name, custom := ps[id].custom) == ps[id]
      && (id != CustomId(stamp) ==> next[id] == ps[id])
      && DeleteProfileSpec(next, values, CustomId(stamp)).0 == Deleted
  {
    CustomIdNotBuiltIn(stamp);
  }

  /** `POST /dosing/profiles/duplicate/<id>`, with the creation time as `stamp`. */
  method DuplicateProfile(store: Store, id: string, stamp: string) returns (done: bool)
    modifies store
    ensures done == DuplicateProfileSpec(old(store.ProfileMap()), id, stamp).Some?
    ensures store.profiles == (if done then DuplicateProfileSpec(old(store.ProfileMap()), id, stamp) else old(store.profiles))
    ensures store.values == old(store.values) && store.incompatibilities == old(store.incompatibilities)
  {
    var ps := store.ProfileMap();
    if id !in ps || ps[id].name.None? {
      return false;
    }
    var source := ps[id];
    store.profiles := Some(ps[CustomId(stamp) := source.(name := Some("Copy of " + source.name.value), custom := Some(true))]);
    done := true;
  }
}
