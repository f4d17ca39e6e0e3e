/**
 * The pump endpoints of the JSON API: create, update and delete a pump,
 * resolve the duration of a manual dose, migrate legacy pump types, and
 * validate a nutrient product's type. The pumps table is a `PumpTable`;
 * the settings rows touched by auto-configuration are a `Store`.
 */
module PumpApi {
  import opened Common
  import opened PumpModel
  import opened SettingsStore
  import AutoConfig

  const OK := 200
  const BAD_REQUEST := 400
  const FORBIDDEN := 403
  const NOT_FOUND := 404

  /** The hard-wired pH pump types. */
  predicate IsPhKind(kind: string)
  {
    kind == "ph_up" || kind == "ph_down"
  }

  /**
   * A JSON request body. Each field is None when the key is absent; the
   * nullable nutrient fields hold Some(None) for an explicit JSON null.
   */
  datatype PumpBody = PumpBody(
    name: Option<string>,
    kind: Option<string>,
    gpioPin: Option<int>,
    flowRate: Option<real>,
    enabled: Option<bool>,
    brand: Option<Option<string>>,
    nutrientName: Option<Option<string>>,
    nitrogen: Option<Option<real>>,
    phosphorus: Option<Option<real>>,
    potassium: Option<Option<real>>)

  /** `data.get(key)` of a nullable field: None when the key is absent or null. */
  function Given<T>(f: Option<Option<T>>): Option<T>
  {
    if f.Some? then f.value else None
  }

  // ---------------------------------------------------------------------
  // create_pump
  // ---------------------------------------------------------------------

  datatype Creation = Rejected(code: int) | Accepted(row: Pump)

  /**
   * `create_pump`: 400 without a body or without name, type, gpio_pin or
   * flow_rate; 403 for a pH type; otherwise a new pump of type 'nutrient',
   * enabled unless the body says otherwise. No pin is checked for reuse.
   */
  function CreateDecision(body: Option<PumpBody>): Creation
  {
    if body.None? then Rejected(BAD_REQUEST)
    else
      var b := body.value;
      if b.name.None? || b.kind.None? || b.gpioPin.None? || b.flowRate.None? then Rejected(BAD_REQUEST)
      else if IsPhKind(b.kind.value) then Rejected(FORBIDDEN)
      else Accepted(Pump(0, b.name.value, "nutrient", b.gpioPin.value, b.flowRate.value,
                         if b.enabled.Some? then b.enabled.value else true,
                         Given(b.brand), Given(b.nutrientName), Given(b.nitrogen), Given(b.phosphorus), Given(b.potassium)))
  }

  /** The table after `create_pump`. */
  function CreatedRows(rows: seq<Pump>, body: Option<PumpBody>): seq<Pump>
  {
    match CreateDecision(body)
    case Accepted(row) => rows + [row.(id := NextId(rows))]
    case Rejected(_) => rows
  }

  /** The required fields are all there. */
  predicate Complete(body: Option<PumpBody>)
  {
    body.Some? && body.value.name.Some? && body.value.kind.Some? && body.value.gpioPin.Some? && body.value.flowRate.Some?
  }

  /** Which requests `create_pump` refuses, and the pump it stores otherwise. */
  lemma CreateRules(body: Option<PumpBody>)
    ensures CreateDecision(body) == Rejected(BAD_REQUEST) <==> !Complete(body)
    ensures CreateDecision(body) == Rejected(FORBIDDEN) <==> Complete(body) && IsPhKind(body.value.kind.value)
    ensures CreateDecision(body).Accepted? ==>
      var p := CreateDecision(body).row;
      && Complete(body) && !IsPhKind(body.value.kind.value)
      && p.kind == "nutrient" && p.name == body.value.name.value
      && p.gpioPin == body.value.gpioPin.value && p.flowRate == body.value.flowRate.value
      && (body.value.enabled.None? ==> p.enabled)
  {
  }

  /** `create_pump` stores a pump even when its pin is already used by another pump. */
  lemma CreateAllowsSharedPin(rows: seq<Pump>, body: Option<PumpBody>, i: int)
    requires CreateDecision(body).Accepted?
    requires 0 <= i < |rows| && rows[i].gpioPin == body.value.gpioPin.value
    ensures var r := CreatedRows(rows, body);
      |r| == |rows| + 1 && r[i].gpioPin == r[|rows|].gpioPin
  {
  }

  /** `POST /pumps`. */
  method CreatePump(table: PumpTable, body: Option<PumpBody>) returns (code: int)
    requires table.Valid()
    modifies table
    ensures table.Valid()
    ensures code == (if CreateDecision(body).Accepted? then OK else CreateDecision(body).code)
    ensures table.rows == CreatedRows(old(table.rows), body)
  {
    var decision := CreateDecision(body);
    if decision.Rejected? {
      return decision.code;
    }
    var _ := table.Insert(decision.row);
    code := OK;
  }

  // ---------------------------------------------------------------------
  // update_pump
  // ---------------------------------------------------------------------

  /** `Pump.query.filter(gpio_pin == pin, id != id).first()`: another pump on that pin. */
  function PinHolder(rows: seq<Pump>, id: int, pin: int): (r: Option<Pump>)
    ensures r.Some? ==> r.value in rows && r.value.id != id && r.value.gpioPin == pin
    ensures r.None? <==> forall p :: p in rows ==> p.id == id || p.gpioPin != pin
  {
    if rows == [] then None
    else if rows[0].id != id && rows[0].gpioPin == pin then Some(rows[0])
    else PinHolder(rows[1..], id, pin)
  }

  /** A given field that differs from the stored value. */
  predicate Differs<T(==)>(f: Option<T>, current: T)
  {
    f.Some? && f.value != current
  }

  function Pick<T>(f: Option<T>, current: T): T
  {
    if f.Some? then f.value else current
  }

  /** The name, brand, nutrient name or an N-P-K value is given and differs. */
  predicate NutrientChanged(p: Pump, b: PumpBody)
  {
    || Differs(b.name, p.name)
    || Differs(b.brand, p.brand)
    || Differs(b.nutrientName, p.nutrientName)
    || Differs(b.nitrogen, p.nitrogen)
    || Differs(b.phosphorus, p.phosphorus)
    || Differs(b.potassium, p.potassium)
  }

  /** Legacy 'nutrient_*' types become 'nutrient'. */
  function NormalKind(kind: string): string
  {
    if StartsWith(kind, "nutrient_") then "nutrient" else kind
  }

  /** A nutrient pump with every given field written and its type normalised. */
  function Updated(p: Pump, b: PumpBody): Pump
  {
    p.(name := Pick(b.name, p.name), gpioPin := Pick(b.gpioPin, p.gpioPin), enabled := Pick(b.enabled, p.enabled),
       brand := Pick(b.brand, p.brand), nutrientName := Pick(b.nutrientName, p.nutrientName),
       nitrogen := Pick(b.nitrogen, p.nitrogen), phosphorus := Pick(b.phosphorus, p.phosphorus),
       potassium := Pick(b.potassium, p.potassium), kind := NormalKind(p.kind))
  }

  /** The status, the row to store (None when nothing is committed) and whether profiles are reconfigured. */
  datatype UpdateOutcome = UpdateOutcome(code: int, row: Option<Pump>, reconfigure: bool)

  /**
   * `update_pump`: 404 for an unknown id; a pH pump takes only `enabled`
   * (403 without it); a pin held by another pump is 400; otherwise every
   * given field is written, and profiles are reconfigured when a nutrient
   * field changed.
   */
  function UpdateDecision(rows: seq<Pump>, id: int, b: PumpBody): UpdateOutcome
  {
    match Find(rows, id)
    case None => UpdateOutcome(NOT_FOUND, None, false)
    case Some(p) =>
      if IsPhKind(p.kind) then
        if b.enabled.Some? then UpdateOutcome(OK, Some(p.(enabled := b.enabled.value)), false)
        else UpdateOutcome(FORBIDDEN, None, false)
      else if b.gpioPin.Some? && PinHolder(rows, id, b.gpioPin.value).Some? then UpdateOutcome(BAD_REQUEST, None, false)
      else UpdateOutcome(OK, Some(Updated(p, b)), NutrientChanged(p, b))
  }

  /** The table with the row of `q`'s id replaced by `q`. */
  function Put(rows: seq<Pump>, q: Pump): (r: seq<Pump>)
    ensures |r| == |rows|
    ensures forall i :: 0 <= i < |rows| ==> r[i] == if rows[i].id == q.id then q else rows[i]
  {
    if rows == [] then [] else [if rows[0].id == q.id then q else rows[0]] + Put(rows[1..], q)
  }

  /** Only the enabled flag of a pH pump can change, and changing it never reconfigures profiles. */
  lemma UpdatePhPump(rows: seq<Pump>, id: int, b: PumpBody)
    requires Find(rows, id).Some? && IsPhKind(Find(rows, id).value.kind)
    ensures var o, p := UpdateDecision(rows, id, b), Find(rows, id).value;
      && o.code == (if b.enabled.Some? then OK else FORBIDDEN)
      && !o.reconfigure
      && (o.row.Some? <==> b.enabled.Some?)
      && (o.row.Some? ==> o.row.value == p.(enabled := b.enabled.value))
  {
  }

  /** A pin used by another pump is refused and nothing is stored; the pump's own pin is always accepted. */
  lemma UpdatePinRules(rows: seq<Pump>, id: int, b: PumpBody)
    requires Find(rows, id).Some? && !IsPhKind(Find(rows, id).value.kind) && b.gpioPin.Some?
    ensures var o := UpdateDecision(rows, id, b);
      (o.code == BAD_REQUEST <==> exists q :: q in rows && q.id != id && q.gpioPin == b.gpioPin.value)
      && (o.code == BAD_REQUEST ==> o.row.None? && !o.reconfigure)
    ensures UniqueIds(rows) && b.gpioPin.value == Find(rows, id).value.gpioPin
      && (forall q :: q in rows && q.id != id ==> q.gpioPin != b.gpioPin.value)
      ==> UpdateDecision(rows, id, b).code == OK
  {
  }

  /**
   * Profiles are reconfigured exactly when a nutrient pump's name, brand,
   * nutrient name or an N-P-K value actually changes and the update is accepted.
   */
  lemma UpdateReconfigures(rows: seq<Pump>, id: int, b: PumpBody)
    ensures var o := UpdateDecision(rows, id, b);
      o.reconfigure <==> o.code == OK && !IsPhKind(Find(rows, id).value.kind) && NutrientChanged(Find(rows, id).value, b)
  {
  }

  /** A body that only moves the pin or toggles the pump never reconfigures profiles. */
  lemma PinAndEnabledDontReconfigure(rows: seq<Pump>, id: int, b: PumpBody)
    requires b.name.None? && b.brand.None? && b.nutrientName.None?
    requires b.nitrogen.None? && b.phosphorus.None? && b.potassium.None?
    ensures !UpdateDecision(rows, id, b).reconfigure
  {
  }

  /** An accepted nutrient-pump update keeps the id and rewrites a legacy 'nutrient_*' type. */
  lemma UpdateNormalisesType(rows: seq<Pump>, id: int, b: PumpBody)
    requires Find(rows, id).Some? && !IsPhKind(Find(rows, id).value.kind)
    requires UpdateDecision(rows, id, b).code == OK
    ensures var q := UpdateDecision(rows, id, b).row.value;
      && q.id == id
      && (StartsWith(Find(rows, id).value.kind, "nutrient_") ==> q.kind == "nutrient")
      && (!StartsWith(Find(rows, id).value.kind, "nutrient_") ==> q.kind == Find(rows, id).value.kind)
  {
  }

  /** Sending the same update again changes nothing further and does not reconfigure. */
  lemma UpdateSettles(p: Pump, b: PumpBody)
    ensures Updated(Updated(p, b), b) == Updated(p, b)
    ensures !NutrientChanged(Updated(p, b), b)
  {
    assert NormalKind(NormalKind(p.kind)) == NormalKind(p.kind) by {
      if StartsWith(p.kind, "nutrient_") {
        assert !StartsWith("nutrient", "nutrient_");
      }
    }
  }

  /** Replacing a row by one with the same id keeps ids unique. */
  lemma PutKeepsIds(rows: seq<Pump>, q: Pump)
    requires UniqueIds(rows)
    ensures UniqueIds(Put(rows, q))
  {
  }

  /** The rows after an accepted update. */
  function AfterUpdate(rows: seq<Pump>, o: UpdateOutcome): seq<Pump>
  {
    if o.row.Some? then Put(rows, o.row.value) else rows
  }

  /** `Settings.auto_configure_nutrient_components` as seen in the profiles row. */
  function ConfiguredProfiles(profiles: Option<map<string, Profile>>, rows: seq<Pump>): Option<map<string, Profile>>
  {
    var ps := profiles.GetOr(map[]);
    var pumps := AutoConfig.NutrientPumps(rows);
    if AutoConfig.AnyReplaced(ps, pumps) then Some(AutoConfig.Reconfigured(ps, pumps)) else profiles
  }

  /** Run auto-configuration over the current pumps. */
  method Reconfigure(table: PumpTable, store: Store) returns (res: AutoConfig.ConfigResult)
    modifies store
    ensures store.profiles == ConfiguredProfiles(old(store.profiles), table.rows)
    ensures store.incompatibilities == Some(AutoConfig.CheckIncompatibility(AutoConfig.NutrientPumps(table.rows)))
    ensures store.values == old(store.values)
    ensures res.pumpsFound == |AutoConfig.NutrientPumps(table.rows)|
  {
    res := AutoConfig.AutoConfigure(store, table.rows);
  }

  /** `PUT /pumps/<id>`. */
  method UpdatePump(table: PumpTable, store: Store, id: int, b: PumpBody) returns (code: int, config: Option<AutoConfig.ConfigResult>)
    requires table.Valid()
    modifies table, store
    ensures table.Valid()
    ensures var o := UpdateDecision(old(table.rows), id, b);
      && code == o.code
      && table.rows == AfterUpdate(old(table.rows), o)
      && (config.Some? <==> o.reconfigure)
      && store.values == old(store.values)
      && store.profiles == (if o.reconfigure then ConfiguredProfiles(old(store.profiles), table.rows) else old(store.profiles))
      && store.incompatibilities == (if o.reconfigure then Some(AutoConfig.CheckIncompatibility(AutoConfig.NutrientPumps(table.rows)))
                                     else old(store.incompatibilities))
  {
    var o := UpdateDecision(table.rows, id, b);
    code := o.code;
    config := None;
    if o.row.Some? {
      assert o.row.value.id == id;
      PutKeepsIds(table.rows, o.row.value);
      table.rows := Put(table.rows, o.row.value);
    }
    if o.reconfigure {
      var res := Reconfigure(table, store);
      config := Some(res);
    }
  }

  // ---------------------------------------------------------------------
  // delete_pump
  // ---------------------------------------------------------------------

  /** `delete_pump`: 404 for an unknown id, 403 for a pH pump, otherwise the row goes. */
  function DeleteCode(rows: seq<Pump>, id: int): int
  {
    match Find(rows, id)
    case None => NOT_FOUND
    case Some(p) => if IsPhKind(p.kind) then FORBIDDEN else OK
  }

  /** The table without the row of that id. */
  function Without(rows: seq<Pump>, id: int): (r: seq<Pump>)
    ensures forall p :: p in r <==> p in rows && p.id != id
  {
    if rows == [] then []
    else (if rows[0].id == id then [] else [rows[0]]) + Without(rows[1..], id)
  }

  lemma {:induction false} WithoutKeepsIds(rows: seq<Pump>, id: int)
    requires UniqueIds(rows)
    ensures UniqueIds(Without(rows, id))
  {
    if rows != [] {
      WithoutKeepsIds(rows[1..], id);
      var rest := Without(rows[1..], id);
      if rows[0].id != id {
        forall j | 0 <= j < |rest|
          ensures rows[0].id != rest[j].id
        {
          assert rest[j] in rows[1..];
          var k :| 0 <= k < |rows[1..]| && rows[1..][k] == rest[j];
          assert rows[k + 1] == rest[j];
        }
        forall i, j | 0 <= i < j < |[rows[0]] + rest|
          ensures ([rows[0]] + rest)[i].id != ([rows[0]] + rest)[j].id
        {
          if i > 0 {
            assert ([rows[0]] + rest)[i] == rest[i - 1];
          }
        }
      }
    }
  }

  /** Every pH pump survives any delete request. */
  lemma DeleteKeepsPhPumps(rows: seq<Pump>, id: int, p: Pump)
    requires p in rows && IsPhKind(p.kind) && UniqueIds(rows)
    ensures p in (if DeleteCode(rows, id) == OK then Without(rows, id) else rows)
  {
  }

  /** `DELETE /pumps/<id>`: auto-configuration runs after every deletion. */
  method DeletePump(table: PumpTable, store: Store, id: int) returns (code: int, config: Option<AutoConfig.ConfigResult>)
    requires table.Valid()
    modifies table, store
    ensures table.Valid()
    ensures code == DeleteCode(old(table.rows), id)
    ensures table.rows == (if code == OK then Without(old(table.rows), id) else old(table.rows))
    ensures config.Some? <==> code == OK
    ensures store.values == old(store.values)
    ensures store.profiles == (if code == OK then ConfiguredProfiles(old(store.profiles), table.rows) else old(store.profiles))
    ensures store.incompatibilities == (if code == OK then Some(AutoConfig.CheckIncompatibility(AutoConfig.NutrientPumps(table.rows)))
                                       else old(store.incompatibilities))
  {
    code := DeleteCode(table.rows, id);
    config := None;
    if code == OK {
      WithoutKeepsIds(table.rows, id);
      table.rows := Without(table.rows, id);
      var res := Reconfigure(table, store);
      config := Some(res);
    }
  }

  // ---------------------------------------------------------------------
  // dose_manual
  // ---------------------------------------------------------------------

  /** What `dose_manual` asks of the dosing manager. */
  datatype ManualDose = NoSuchPump | Activate(pumpId: int, durationMs: int, reason: string)

  /**
   * `dose_manual`: an `amount_ml` is turned into a duration by the pump's
   * flow rate; otherwise `duration_ms`, with 1000 ms when it is absent or 0.
   */
  function ManualDoseOf(rows: seq<Pump>, id: int, amount: Option<real>, duration: Option<int>): ManualDose
  {
    match Find(rows, id)
    case None => NoSuchPump
    case Some(p) =>
      var ms := if amount.Some? then DosingTime(p.flowRate, amount.value)
                else if duration.None? || duration.value == 0 then 1000
                else duration.value;
      Activate(id, ms, "manual")
  }

  /** The duration rules of `dose_manual`, and that every dose it requests is a manual one. */
  lemma ManualDoseRules(rows: seq<Pump>, id: int, amount: Option<real>, duration: Option<int>)
    ensures var d := ManualDoseOf(rows, id, amount, duration);
      && (d.NoSuchPump? <==> forall p :: p in rows ==> p.id != id)
      && (d.Activate? ==> d.pumpId == id && d.reason == "manual")
      && (d.Activate? && amount.Some? ==> d.durationMs == DosingTime(Find(rows, id).value.flowRate, amount.value))
      && (d.Activate? && amount.Some? && amount.value >= 0.0 ==> d.durationMs >= 0)
      && (d.Activate? && amount.None? && (duration.None? || duration == Some(0)) ==> d.durationMs == 1000)
      && (d.Activate? && amount.None? && duration.Some? && duration.value != 0 ==> d.durationMs == duration.value)
  {
    if Find(rows, id).Some? && amount.Some? && amount.value >= 0.0 {
      var f := Find(rows, id).value.flowRate;
      if f > 0.0 {
        DosingTimeBounds(f, amount.value);
      }
    }
  }

  // ---------------------------------------------------------------------
  // migrate_pump_types
  // ---------------------------------------------------------------------

  /**
   * SQLite's `type LIKE 'nutrient_%'`: "nutrient" in any ASCII letter case
   * followed by at least one more character ('_' matches any one character).
   */
  predicate LikeNutrient(kind: string)
  {
    |kind| >= 9 && Lower(kind[..8]) == "nutrient"
  }

  /** The pumps the migration retypes: matched by the pattern and not a pH type. */
  predicate Migrates(p: Pump)
  {
    LikeNutrient(p.kind) && !IsPhKind(p.kind)
  }

  function Migrated(p: Pump): Pump
  {
    if Migrates(p) then p.(kind := "nutrient") else p
  }

  /** The number of pumps the migration retypes. */
  function MigrationCount(rows: seq<Pump>): (n: nat)
    ensures n <= |rows|
  {
    if rows == [] then 0 else (if Migrates(rows[0]) then 1 else 0) + MigrationCount(rows[1..])
  }

  /** The table after the migration. */
  function MigratedRows(rows: seq<Pump>): (r: seq<Pump>)
    ensures |r| == |rows| && forall i :: 0 <= i < |rows| ==> r[i] == Migrated(rows[i])
  {
    if rows == [] then [] else [Migrated(rows[0])] + MigratedRows(rows[1..])
  }

  lemma LowerNutrient(t: string)
    requires t == "nutrient"
    ensures Lower(t) == t
  {
  }

  /** No pH type matches the pattern, so the skip of pH pumps never applies. */
  lemma PhNeverMatches(kind: string)
    requires IsPhKind(kind)
    ensures !LikeNutrient(kind)
  {
  }

  /** Every legacy 'nutrient_*' type is matched by the pattern. */
  lemma PatternCoversLegacyTypes(kind: string)
    requires StartsWith(kind, "nutrient_")
    ensures LikeNutrient(kind)
  {
    var head := kind[..8];
    assert head == "nutrient" by {
      assert kind[..9][..8] == head;
    }
    LowerNutrient(head);
  }

  /** The generic 'nutrient' type itself is not matched: '_' needs one more character. */
  lemma PatternSkipsGenericType()
    ensures !LikeNutrient("nutrient")
  {
  }

  /** A migrated pump no longer matches, so a second migration retypes nothing. */
  lemma {:induction false} MigrationSettles(rows: seq<Pump>)
    ensures MigrationCount(MigratedRows(rows)) == 0
    ensures MigratedRows(MigratedRows(rows)) == MigratedRows(rows)
  {
    if rows != [] {
      MigrationSettles(rows[1..]);
      assert MigratedRows(rows)[1..] == MigratedRows(rows[1..]);
      assert !Migrates(Migrated(rows[0]));
    }
  }

  /** The count is positive exactly when some pump's type changed, so the commit happens exactly then. */
  lemma {:induction false} MigrationCountsChanges(rows: seq<Pump>)
    ensures MigrationCount(rows) > 0 <==> MigratedRows(rows) != rows
  {
    if rows != [] {
      MigrationCountsChanges(rows[1..]);
      var m := MigratedRows(rows);
      assert m[1..] == MigratedRows(rows[1..]);
      if Migrates(rows[0]) {
        assert m[0] != rows[0];
      } else if MigratedRows(rows[1..]) == rows[1..] {
        assert m == [rows[0]] + rows[1..];
      } else {
        assert m[1..] != rows[1..];
      }
    }
  }

  /** `POST /pumps/migrate-types`: retype each matching pump, count them, commit only when the count is positive. */
  method MigratePumpTypes(table: PumpTable) returns (count: nat, committed: bool)
    requires table.Valid()
    modifies table
    ensures table.Valid()
    ensures table.rows == MigratedRows(old(table.rows))
    ensures count == MigrationCount(old(table.rows)) && committed == (count > 0)
  {
    ghost var start := table.rows;
    var i := 0;
    count := 0;
    while i < |table.rows|
      invariant |table.rows| == |start| && 0 <= i <= |start|
      invariant table.rows[..i] == MigratedRows(start[..i]) && table.rows[i..] == start[i..]
      invariant count == MigrationCount(start[..i])
    {
      var p := table.rows[i];
      assert p == start[i];
      if Migrates(p) {
        table.rows := table.rows[i := p.(kind := "nutrient")];
        count := count + 1;
      }
      MigrationStep(start, i);
      i := i + 1;
    }
    assert start[..|start|] == start && table.rows[..|start|] == table.rows;
    MigratedKeepsIds(start);
    committed := count > 0;
  }

  lemma MigrationStep(rows: seq<Pump>, i: int)
    requires 0 <= i < |rows|
    ensures MigratedRows(rows[..i + 1]) == MigratedRows(rows[..i]) + [Migrated(rows[i])]
    ensures MigrationCount(rows[..i + 1]) == MigrationCount(rows[..i]) + (if Migrates(rows[i]) then 1 else 0)
  {
    CountSnoc(rows[..i], rows[i]);
    assert rows[..i + 1] == rows[..i] + [rows[i]];
  }

  lemma {:induction false} CountSnoc(rows: seq<Pump>, p: Pump)
    ensures MigrationCount(rows + [p]) == MigrationCount(rows) + (if Migrates(p) then 1 else 0)
  {
    if rows != [] {
      CountSnoc(rows[1..], p);
      assert (rows + [p])[1..] == rows[1..] + [p];
    }
  }

  lemma MigratedKeepsIds(rows: seq<Pump>)
    requires UniqueIds(rows)
    ensures UniqueIds(MigratedRows(rows))
  {
  }

  // ---------------------------------------------------------------------
  // nutrient_type of a nutrient product
  // ---------------------------------------------------------------------

  const NUTRIENT_TYPES: seq<string> := ["grow", "bloom", "micro", "calmag", "other"]

  /** `nutrient_type and nutrient_type not in valid_types` is the rejection test. */
  predicate NutrientTypeAccepted(t: Option<string>)
  {
    t.None? || t.value == "" || t.value in NUTRIENT_TYPES
  }

  /**
   * `create_nutrient_product`: 400 without a body or without brand_id or
   * name, 404 for an unknown brand, 400 for an invalid type, else created.
   */
  function CreateProductCode(hasBody: bool, hasBrandId: bool, hasName: bool, brandExists: bool, t: Option<string>): int
  {
    if !hasBody || !hasBrandId || !hasName then BAD_REQUEST
    else if !brandExists then NOT_FOUND
    else if !NutrientTypeAccepted(t) then BAD_REQUEST
    else OK
  }

  /** `update_nutrient_product`: 400 without a body, 404 for an unknown product, 400 for an invalid type. */
  function UpdateProductCode(hasBody: bool, productExists: bool, t: Option<string>): int
  {
    if !hasBody then BAD_REQUEST
    else if !productExists then NOT_FOUND
    else if !NutrientTypeAccepted(t) then BAD_REQUEST
    else OK
  }

  /** A supplied, non-empty type outside the five known ones is always refused; the five are accepted. */
  lemma NutrientTypeRules(t: string, hasBody: bool, hasBrandId: bool, hasName: bool, brandExists: bool, productExists: bool)
    ensures t != "" && t !in NUTRIENT_TYPES ==>
      CreateProductCode(hasBody, hasBrandId, hasName, brandExists, Some(t)) != OK
      && UpdateProductCode(hasBody, productExists, Some(t)) != OK
    ensures t in NUTRIENT_TYPES && hasBody && hasBrandId && hasName && brandExists ==>
      CreateProductCode(hasBody, hasBrandId, hasName, brandExists, Some(t)) == OK
    ensures t in NUTRIENT_TYPES && hasBody && productExists ==> UpdateProductCode(hasBody, productExists, Some(t)) == OK
  {
  }
}
