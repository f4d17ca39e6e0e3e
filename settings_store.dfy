/**
 * The `settings` table: a key-value store holding scalar settings, the
 * `plant_profiles` dictionary and the stored nutrient incompatibilities, and
 * `Settings.initialize_defaults`, which fills in whatever is missing.
 */
module SettingsStore {
  import opened Common

  /** A scalar setting as it comes back from the store (a JSON number, boolean or text). */
  datatype Value = Num(n: real) | Flag(b: bool) | Text(s: string)

  /** Python truthiness of a stored scalar. */
  predicate Truthy(v: Value)
  {
    match v
    case Num(n) => n != 0.0
    case Flag(b) => b
    case Text(s) => s != ""
  }

  /** Truthiness of `Settings.get(key, default)` for a boolean default. */
  predicate TruthySetting(values: map<string, Value>, key: string, default: bool)
  {
    if key in values then Truthy(values[key]) else default
  }

  /** `Settings.get(key, default)` for a numeric setting (booleans count as 1 and 0, text as absent). */
  function NumSetting(values: map<string, Value>, key: string, default: real): (r: Option<real>)
    ensures key !in values ==> r == Some(default)
    ensures key in values && values[key].Num? ==> r == Some(values[key].n)
  {
    if key !in values then Some(default)
    else match values[key]
      case Num(n) => Some(n)
      case Flag(b) => Some(if b then 1.0 else 0.0)
      case Text(_) => None
  }

  /** `Settings.get(key, default)` for a text setting. */
  function TextSetting(values: map<string, Value>, key: string, default: string): (r: Option<string>)
    ensures key !in values ==> r == Some(default)
  {
    if key !in values then Some(default)
    else match values[key]
      case Text(s) => Some(s)
      case _ => None
  }

  /** The four nutrient roles a pump can play in a plant profile. */
  datatype Role = Grow | Bloom | Micro | CalMag

  /** The key under which a role's ratio is stored in `nutrient_ratios`. */
  function RoleKey(r: Role): (k: string)
    ensures k in {"grow", "bloom", "micro", "calmag"}
  {
    match r
    case Grow => "grow"
    case Bloom => "bloom"
    case Micro => "micro"
    case CalMag => "calmag"
  }

  lemma RoleKeyInjective(a: Role, b: Role)
    ensures RoleKey(a) == RoleKey(b) ==> a == b
  {
  }

  /**
   * One entry of a profile's `nutrient_components`. Entries built by the
   * automatic configuration carry a role and a dosing order; entries typed in
   * by a user carry the pump's nutrient name and type instead; the two dose
   * fields are filled in by the dose calculation.
   */
  datatype Component = Component(
    pumpId: int,
    pumpName: string,
    ratio: real,
    role: Option<Role>,
    order: Option<int>,
    nutrientName: Option<string>,
    pumpType: Option<string>,
    perLitre: Option<real>,
    perGallon: Option<real>)

  /** One week of a profile's `weekly_schedules`. */
  datatype WeekSchedule = WeekSchedule(ecSetpoint: Option<real>, ratios: map<string, real>)

  /** A plant profile; every key of the stored dictionary may be absent. */
  datatype Profile = Profile(
    name: Option<string>,
    description: Option<string>,
    phSetpoint: Option<real>,
    phBuffer: Option<real>,
    ecSetpoint: Option<real>,
    ecBuffer: Option<real>,
    tempMin: Option<real>,
    tempMax: Option<real>,
    custom: Option<bool>,
    ratios: Option<map<string, real>>,
    components: Option<seq<Component>>,
    weekly: Option<map<int, WeekSchedule>>,
    totalWeeks: Option<int>,
    currentWeek: Option<int>,
    growthPhases: Option<string>)

  /** A pump named in an incompatibility warning. */
  datatype PumpRef = PumpRef(id: int, name: string)

  /** An entry of `nutrient_incompatibilities`. */
  datatype Incompatibility = Incompatibility(kind: string, message: string, pumps: seq<PumpRef>)

  const ACTIVE_PROFILE_KEY := "active_plant_profile"

  /** The ids of the five profiles the application ships with. */
  const BUILT_IN_IDS: seq<string> := ["general", "leafy_greens", "fruiting", "herbs", "strawberries"]

  function Ratios(grow: real, bloom: real, micro: real, calmag: real): map<string, real>
  {
    map["grow" := grow, "bloom" := bloom, "micro" := micro, "calmag" := calmag]
  }

  function BuiltIn(name: string, description: string, ph: real, ec: real, ecBuffer: real,
                   tempMin: real, tempMax: real, ratios: map<string, real>): Profile
  {
    Profile(Some(name), Some(description), Some(ph), Some(0.2), Some(ec), Some(ecBuffer),
            Some(tempMin), Some(tempMax), Some(false), Some(ratios), Some([]), None, None, None, None)
  }

  /** The built-in plant profiles written by `initialize_defaults`. */
  function BuiltInProfiles(): (ps: map<string, Profile>)
    ensures ps.Keys == set id | id in BUILT_IN_IDS
    ensures forall id :: id in ps ==> ps[id].custom == Some(false) && ps[id].components == Some([])
  {
    map[
      "general" := BuiltIn("General", "General purpose profile for most plants",
                           6.0, 1350.0, 150.0, 18.0, 28.0, Ratios(1.0, 1.0, 1.0, 0.5)),
      "leafy_greens" := BuiltIn("Leafy Greens", "Optimal settings for lettuce, spinach, kale, etc.",
                                6.0, 1200.0, 150.0, 15.0, 24.0, Ratios(1.5, 0.5, 1.0, 0.7)),
      "fruiting" := BuiltIn("Fruiting", "For tomatoes, peppers, cucumbers and other fruiting plants",
                            6.0, 1800.0, 150.0, 20.0, 28.0, Ratios(0.7, 2.0, 1.0, 1.0)),
      "herbs" := BuiltIn("Herbs", "Ideal for basil, cilantro, parsley and other herbs",
                         5.8, 1200.0, 100.0, 18.0, 26.0, Ratios(1.2, 0.7, 1.0, 0.5)),
      "strawberries" := BuiltIn("Strawberries", "Optimized for growing strawberries",
                                5.8, 1300.0, 100.0, 18.0, 26.0, Ratios(0.8, 1.8, 1.0, 1.2))
    ]
  }

  /** The scalar defaults, in the order `initialize_defaults` visits them. */
  const DEFAULTS: seq<(string, Value)> := [
    ("ph_setpoint", Num(6.0)),
    ("ph_buffer", Num(0.2)),
    ("ph_check_interval", Num(300.0)),
    ("ph_dose_amount", Num(1.0)),
    ("ph_dose_wait_time", Num(60.0)),
    ("ec_setpoint", Num(1350.0)),
    ("ec_buffer", Num(150.0)),
    ("ec_check_interval", Num(300.0)),
    ("ec_dose_amount", Num(5.0)),
    ("ec_dose_wait_time", Num(60.0)),
    ("temp_check_interval", Num(300.0)),
    ("temp_min_alert", Num(18.0)),
    ("temp_max_alert", Num(30.0)),
    ("notifications_enabled", Flag(true)),
    ("email_notifications", Flag(false)),
    ("email_address", Text("")),
    ("sms_notifications", Flag(false)),
    ("phone_number", Text("")),
    ("logging_interval", Num(300.0)),
    ("auto_dosing_enabled", Flag(true)),
    ("night_mode_enabled", Flag(false)),
    ("night_mode_start", Text("22:00")),
    ("night_mode_end", Text("06:00")),
    ("dark_mode", Flag(true)),
    ("temp_target", Num(25.0)),
    ("temp_buffer", Num(2.0)),
    ("chart_points", Num(50.0)),
    ("refresh_interval", Num(10.0))
  ]

  /** The stored `plant_profiles` is missing or empty (`not Settings.get('plant_profiles')`). */
  predicate ProfilesFalsy(profiles: Option<map<string, Profile>>)
  {
    profiles.None? || profiles.value == map[]
  }

  /** The stored active profile is kept only when it is the text id of a built-in profile. */
  predicate ActiveIsBuiltIn(values: map<string, Value>)
  {
    ACTIVE_PROFILE_KEY in values && values[ACTIVE_PROFILE_KEY].Text? && values[ACTIVE_PROFILE_KEY].s in BUILT_IN_IDS
  }

  /**
   * The values after visiting `defaults` in order and writing each one whose key is still
   * absent at that point.
   */
  function FillMissing(values: map<string, Value>, defaults: seq<(string, Value)>): (r: map<string, Value>)
    ensures forall k :: k in values ==> k in r && r[k] == values[k]
    ensures forall i :: 0 <= i < |defaults| ==> defaults[i].0 in r
    ensures forall k :: k in r ==> k in values || exists i :: 0 <= i < |defaults| && defaults[i].0 == k
  {
    if defaults == [] then values
    else
      var before := FillMissing(values, defaults[..|defaults| - 1]);
      var (key, value) := defaults[|defaults| - 1];
      if key in before then before else before[key := value]
  }

  /** A key absent before receives the first default listed for it. */
  lemma {:induction false} FillMissingFirstDefault(values: map<string, Value>, defaults: seq<(string, Value)>, i: int)
    requires 0 <= i < |defaults| && defaults[i].0 !in values
    requires forall j :: 0 <= j < i ==> defaults[j].0 != defaults[i].0
    ensures FillMissing(values, defaults)[defaults[i].0] == defaults[i].1
  {
    if i < |defaults| - 1 {
      FillMissingFirstDefault(values, defaults[..|defaults| - 1], i);
    } else {
      assert defaults[..|defaults| - 1] == defaults[..i];
    }
  }

  /** The settings table. */
  class Store {
    /** Scalar settings by key; an absent key is a missing row. */
    var values: map<string, Value>
    /** The `plant_profiles` row. */
    var profiles: Option<map<string, Profile>>
    /** The `nutrient_incompatibilities` row. */
    var incompatibilities: Option<seq<Incompatibility>>

    constructor ()
      ensures values == map[] && profiles == None && incompatibilities == None
    {
      values := map[];
      profiles := None;
      incompatibilities := None;
    }

    /** `Settings.get('plant_profiles', {})`. */
    function ProfileMap(): map<string, Profile>
      reads this
    {
      profiles.GetOr(map[])
    }

    /** `Settings.set(key, value)` for a scalar. */
    method Set(key: string, v: Value)
      modifies this
      ensures values == old(values)[key := v]
      ensures profiles == old(profiles) && incompatibilities == old(incompatibilities)
    {
      values := values[key := v];
    }

    /**
     * `Settings.initialize_defaults`: seed the built-in profiles when there are none,
     * point the active profile at 'general' unless it names a built-in profile, and
     * write every scalar default whose key is absent.
     */
    method InitializeDefaults()
      modifies this
      ensures profiles == (if ProfilesFalsy(old(profiles)) then Some(BuiltInProfiles()) else old(profiles))
      ensures values == InitializedValues(old(values))
      ensures incompatibilities == old(incompatibilities)
    {
      if ProfilesFalsy(profiles) {
        profiles := Some(BuiltInProfiles());
      }
      if !ActiveIsBuiltIn(values) {
        Set(ACTIVE_PROFILE_KEY, Text("general"));
      }
      FillDefaults(DEFAULTS);
    }

    /** Write each listed default, in order, whose key is absent at that point. */
    method FillDefaults(defaults: seq<(string, Value)>)
      modifies this
      ensures values == FillMissing(old(values), defaults)
      ensures profiles == old(profiles) && incompatibilities == old(incompatibilities)
    {
      var i := 0;
      while i < |defaults|
        invariant 0 <= i <= |defaults|
        invariant values == FillMissing(old(values), defaults[..i])
        invariant profiles == old(profiles) && incompatibilities == old(incompatibilities)
      {
        assert defaults[..i + 1][..i] == defaults[..i];
        var (key, value) := defaults[i];
        if key !in values {
          Set(key, value);
        }
        i := i + 1;
      }
      assert defaults[..i] == defaults;
    }
  }

  /** No default key is listed twice. */
  lemma DefaultKeysDistinct()
    ensures forall i, j :: 0 <= i < j < |DEFAULTS| ==> DEFAULTS[i].0 != DEFAULTS[j].0
  {
  }

  /** The scalar settings `initialize_defaults` leaves behind. */
  function InitializedValues(values: map<string, Value>): map<string, Value>
  {
    FillMissing(if ActiveIsBuiltIn(values) then values else values[ACTIVE_PROFILE_KEY := Text("general")], DEFAULTS)
  }

  /**
   * After `initialize_defaults` every default key is present; keys that were present keep
   * their value (the active profile aside); missing keys get their default; the active
   * profile is a built-in id, and one that already was is kept.
   */
  lemma InitializeDefaultsSettles(values: map<string, Value>)
    ensures ActiveIsBuiltIn(InitializedValues(values))
    ensures ActiveIsBuiltIn(values) ==> InitializedValues(values)[ACTIVE_PROFILE_KEY] == values[ACTIVE_PROFILE_KEY]
    ensures forall k :: k in values && k != ACTIVE_PROFILE_KEY ==>
      k in InitializedValues(values) && InitializedValues(values)[k] == values[k]
    ensures forall i :: 0 <= i < |DEFAULTS| ==> DEFAULTS[i].0 in InitializedValues(values)
    ensures forall i :: 0 <= i < |DEFAULTS| && DEFAULTS[i].0 !in values ==>
      InitializedValues(values)[DEFAULTS[i].0] == DEFAULTS[i].1
  {
    var start := if ActiveIsBuiltIn(values) then values else values[ACTIVE_PROFILE_KEY := Text("general")];
    assert ActiveIsBuiltIn(start);
    DefaultKeysDistinct();
    forall i | 0 <= i < |DEFAULTS| && DEFAULTS[i].0 !in values
      ensures FillMissing(start, DEFAULTS)[DEFAULTS[i].0] == DEFAULTS[i].1
    {
      assert DEFAULTS[i].0 != ACTIVE_PROFILE_KEY;
      FillMissingFirstDefault(start, DEFAULTS, i);
    }
  }

  /** A stored custom profile that is active is still replaced by 'general'. */
  lemma ActiveCustomProfileIsReset(values: map<string, Value>, id: string)
    requires ACTIVE_PROFILE_KEY in values && values[ACTIVE_PROFILE_KEY] == Text(id) && id !in BUILT_IN_IDS
    ensures InitializedValues(values)[ACTIVE_PROFILE_KEY] == Text("general")
  {
  }
}
