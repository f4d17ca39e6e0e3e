/**
 * The `pumps` table: one row per peristaltic pump, the dosing-time
 * arithmetic, the enabled/type filters, and the seeding of default pumps.
 */
module PumpModel {
  import opened Common

  /** A pump row; `kind` is the stored `type` column ('ph_up', 'ph_down', 'nutrient', ...). */
  datatype Pump = Pump(
    id: int,
    name: string,
    kind: string,
    gpioPin: int,
    flowRate: real,
    enabled: bool,
    brand: Option<string>,
    nutrientName: Option<string>,
    nitrogen: Option<real>,
    phosphorus: Option<real>,
    potassium: Option<real>)

  /** A new row as the code builds it: no nutrient details, enabled. */
  function NewPump(name: string, kind: string, pin: int, flow: real): (p: Pump)
    ensures p.enabled && p.name == name && p.kind == kind && p.gpioPin == pin && p.flowRate == flow
  {
    Pump(0, name, kind, pin, flow, true, None, None, None, None, None)
  }

  /**
   * `Pump.calculate_dosing_time`: milliseconds needed to pump `amount` ml,
   * truncated toward zero; 0 for a pump whose flow rate is not positive.
   */
  function DosingTime(flowRate: real, amount: real): (ms: int)
  {
    if flowRate <= 0.0 then 0 else Trunc(amount / flowRate * 1000.0)
  }

  /** A pump with no positive flow rate never runs. */
  lemma DosingTimeNoFlow(flowRate: real, amount: real)
    requires flowRate <= 0.0
    ensures DosingTime(flowRate, amount) == 0
  {
  }

  /** The time is the exact running time, truncated to whole milliseconds toward zero. */
  lemma DosingTimeBounds(flowRate: real, amount: real)
    requires flowRate > 0.0
    ensures var exact := amount / flowRate * 1000.0;
      && (amount >= 0.0 ==> 0 <= DosingTime(flowRate, amount) && DosingTime(flowRate, amount) as real <= exact < DosingTime(flowRate, amount) as real + 1.0)
      && (amount < 0.0 ==> DosingTime(flowRate, amount) <= 0 && exact <= DosingTime(flowRate, amount) as real)
  {
  }

  /** More liquid never takes less time at a fixed positive flow rate. */
  lemma DosingTimeMonotone(flowRate: real, a: real, b: real)
    requires flowRate > 0.0 && a <= b
    ensures DosingTime(flowRate, a) <= DosingTime(flowRate, b)
  {
    var x := a / flowRate * 1000.0;
    var y := b / flowRate * 1000.0;
    assert x <= y by {
      assert a / flowRate <= b / flowRate;
    }
    if x >= 0.0 {
      assert x.Floor <= y.Floor;
    } else if y < 0.0 {
      assert (-y).Floor <= (-x).Floor;
    }
  }

  /** Two millilitres at one millilitre per second: 2000 ms. */
  lemma DosingTimeExample()
    ensures DosingTime(1.0, 2.0) == 2000
    ensures DosingTime(0.0, 2.0) == 0
    ensures DosingTime(3.0, 1.0) == 333
  {
    assert 1.0 / 3.0 * 1000.0 == 1000.0 / 3.0;
    assert (1000.0 / 3.0).Floor == 333;
  }

  /** `Pump.get_by_type`: the enabled pumps of one type, in table order. */
  function ByType(rows: seq<Pump>, kind: string): (r: seq<Pump>)
    ensures forall p :: p in r <==> p in rows && p.kind == kind && p.enabled
    ensures |r| <= |rows|
  {
    if rows == [] then []
    else (if rows[0].kind == kind && rows[0].enabled then [rows[0]] else []) + ByType(rows[1..], kind)
  }

  /** No row of a type: no pump of that type is returned. */
  lemma {:induction false} ByTypeAbsent(rows: seq<Pump>, kind: string)
    requires forall p :: p in rows ==> p.kind != kind
    ensures ByType(rows, kind) == []
  {
    if rows != [] {
      assert rows[0] in rows;
      ByTypeAbsent(rows[1..], kind);
    }
  }

  /** Table order is kept: the pumps of a type in two runs of rows are those of the first run, then those of the second. */
  lemma {:induction false} ByTypeKeepsOrder(a: seq<Pump>, b: seq<Pump>, kind: string)
    ensures ByType(a + b, kind) == ByType(a, kind) + ByType(b, kind)
  {
    if a == [] {
      assert a + b == b;
    } else {
      assert (a + b)[0] == a[0] && (a + b)[1..] == a[1..] + b;
      ByTypeKeepsOrder(a[1..], b, kind);
      var head := if a[0].kind == kind && a[0].enabled then [a[0]] else [];
      calc {
        ByType(a + b, kind);
        head + ByType(a[1..] + b, kind);
        head + (ByType(a[1..], kind) + ByType(b, kind));
        (head + ByType(a[1..], kind)) + ByType(b, kind);
      }
    }
  }

  /** `Pump.get_enabled`: the enabled pumps, in table order. */
  function Enabled(rows: seq<Pump>): (r: seq<Pump>)
    ensures forall p :: p in r <==> p in rows && p.enabled
    ensures |r| <= |rows|
  {
    if rows == [] then [] else (if rows[0].enabled then [rows[0]] else []) + Enabled(rows[1..])
  }

  /** Table order is kept: the enabled pumps of two runs of rows are those of the first run, then those of the second. */
  lemma {:induction false} EnabledKeepsOrder(a: seq<Pump>, b: seq<Pump>)
    ensures Enabled(a + b) == Enabled(a) + Enabled(b)
  {
    if a == [] {
      assert a + b == b;
    } else {
      assert (a + b)[0] == a[0] && (a + b)[1..] == a[1..] + b;
      EnabledKeepsOrder(a[1..], b);
      var head := if a[0].enabled then [a[0]] else [];
      assert Enabled(a + b) == head + (Enabled(a[1..]) + Enabled(b));
    }
  }

  /** The first row with a given id (`Pump.query.get`). */
  function Find(rows: seq<Pump>, id: int): (r: Option<Pump>)
    ensures r.Some? ==> r.value in rows && r.value.id == id
    ensures r.None? <==> forall p :: p in rows ==> p.id != id
  {
    if rows == [] then None else if rows[0].id == id then Some(rows[0]) else Find(rows[1..], id)
  }

  /** Some row, enabled or not, has this type (`filter_by(type=...).first() is not None`). */
  predicate HasKind(rows: seq<Pump>, kind: string)
  {
    exists p :: p in rows && p.kind == kind
  }

  predicate UniqueIds(rows: seq<Pump>)
  {
    forall i, j :: 0 <= i < j < |rows| ==> rows[i].id != rows[j].id
  }

  /** The id SQLite gives the next inserted row: one more than the largest id, 1 in an empty table. */
  function NextId(rows: seq<Pump>): (id: int)
    ensures forall p :: p in rows ==> p.id < id
    ensures id >= 1
  {
    if rows == [] then 1
    else var rest := NextId(rows[1..]); if rows[0].id + 1 > rest then rows[0].id + 1 else rest
  }

  /** Rows inserted one after another, each with the next free id. */
  function InsertAll(rows: seq<Pump>, added: seq<Pump>): (r: seq<Pump>)
    ensures |r| == |rows| + |added|
    ensures r[..|rows|] == rows
    ensures UniqueIds(rows) ==> UniqueIds(r)
    decreases |added|
  {
    if added == [] then rows
    else
      var row := added[0].(id := NextId(rows));
      InsertAll(rows + [row], added[1..])
  }

  function PhUpDefault(): Pump { NewPump("pH Up", "ph_up", 17, 1.0) }
  function PhDownDefault(): Pump { NewPump("pH Down", "ph_down", 18, 1.0) }
  function NutrientDefaults(): seq<Pump>
  {
    [NewPump("Grow Nutrient", "nutrient", 22, 1.0),
     NewPump("Bloom Nutrient", "nutrient", 23, 1.0),
     NewPump("Micro Nutrient", "nutrient", 24, 1.0)]
  }

  /** The pH pumps `initialize_defaults` stages: each one whose type is missing. */
  function StagedPhPumps(rows: seq<Pump>): (r: seq<Pump>)
    ensures PhUpDefault() in r <==> !HasKind(rows, "ph_up")
    ensures PhDownDefault() in r <==> !HasKind(rows, "ph_down")
    ensures |r| <= 2
  {
    (if HasKind(rows, "ph_up") then [] else [PhUpDefault()])
      + (if HasKind(rows, "ph_down") then [] else [PhDownDefault()])
  }

  /**
   * What `initialize_defaults` does as written, where the session flushes pending
   * rows before every query: `Pump.query.count()` counts the staged pH pumps, and
   * after that flush `db.session.new` is empty. `staged` are the rows added to the
   * session, `committed` whether the method itself commits.
   */
  datatype DefaultsOutcome = DefaultsOutcome(staged: seq<Pump>, committed: bool)

  function DefaultsAsWritten(rows: seq<Pump>): DefaultsOutcome
  {
    var ph := StagedPhPumps(rows);
    var countAfterFlush := |rows| + |ph|;
    var nutrients := if countAfterFlush == 0 then NutrientDefaults() else [];
    // rows staged after the flush stay in `session.new`
    DefaultsOutcome(ph + nutrients, nutrients != [])
  }

  /** As written, an empty table never receives the nutrient pumps and nothing is committed. */
  lemma DefaultsAsWrittenOnEmptyTable()
    ensures DefaultsAsWritten([]).staged == [PhUpDefault(), PhDownDefault()]
    ensures !DefaultsAsWritten([]).committed
  {
    assert !HasKind([], "ph_up") && !HasKind([], "ph_down");
  }

  /** As written, the method never commits at all: whatever it stages is left to a later commit. */
  lemma DefaultsAsWrittenNeverCommits(rows: seq<Pump>)
    ensures !DefaultsAsWritten(rows).committed
  {
    if |rows| == 0 {
      DefaultsAsWrittenOnEmptyTable();
    }
  }

  /** The pumps table. */
  class PumpTable {
    var rows: seq<Pump>

    ghost predicate Valid()
      reads this
    {
      UniqueIds(rows)
    }

    constructor ()
      ensures rows == [] && Valid()
    {
      rows := [];
    }

    /** Insert one row with the next free id; returns that id. */
    method Insert(p: Pump) returns (id: int)
      requires Valid()
      modifies this
      ensures Valid()
      ensures id == NextId(old(rows)) && rows == old(rows) + [p.(id := id)]
      ensures forall q :: q in old(rows) ==> q.id != id
    {
      id := NextId(rows);
      rows := rows + [p.(id := id)];
    }

    /**
     * `Pump.initialize_defaults` as intended: add each missing pH pump, add the three
     * nutrient pumps when the table held no pumps beforehand, and commit what was added.
     */
    method InitializeDefaults() returns (committed: bool)
      requires Valid()
      modifies this
      ensures Valid()
      ensures var added := StagedPhPumps(old(rows)) + (if old(rows) == [] then NutrientDefaults() else []);
        rows == InsertAll(old(rows), added) && committed == (added != [])
    {
      var added := StagedPhPumps(rows);
      if rows == [] {
        added := added + NutrientDefaults();
      }
      var i := 0;
      ghost var start := rows;
      while i < |added|
        invariant 0 <= i <= |added|
        invariant Valid()
        invariant InsertAll(start, added) == InsertAll(rows, added[i..])
      {
        var _ := Insert(added[i]);
        assert added[i..][1..] == added[i + 1..];
        i := i + 1;
      }
      committed := added != [];
    }
  }

  /** The intended seeding fills an empty table with all five default pumps. */
  lemma DefaultsOnEmptyTable()
    ensures var added := StagedPhPumps([]) + NutrientDefaults();
      |InsertAll([], added)| == 5
      && added == [PhUpDefault(), PhDownDefault()] + NutrientDefaults()
  {
    assert !HasKind([], "ph_up") && !HasKind([], "ph_down");
  }

  /** A table that already has both pH pumps and some row gets nothing new. */
  lemma DefaultsIdempotent(rows: seq<Pump>)
    requires HasKind(rows, "ph_up") && HasKind(rows, "ph_down")
    ensures StagedPhPumps(rows) + (if rows == [] then NutrientDefaults() else []) == []
  {
  }
}
