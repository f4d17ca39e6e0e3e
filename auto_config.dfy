/**
 * `Settings.auto_configure_nutrient_components`: derive each built-in plant
 * profile's nutrient components from the enabled nutrient pumps, report
 * calcium/phosphate incompatibilities, and compute per-litre and per-gallon
 * doses for every profile that has components.
 */
module AutoConfig {
  import opened Common
  import opened SettingsStore
  import opened PumpModel

  // ---------------------------------------------------------------------
  // Classifying a pump (get_nutrient_type)
  // ---------------------------------------------------------------------

  /** The text a pump is classified by: its nutrient name when non-empty, else its name, lowercased. */
  function RoleText(p: Pump): string
  {
    Lower(if p.nutrientName.Some? && p.nutrientName.value != "" then p.nutrientName.value else p.name)
  }

  /** The search terms of each role, in the order they are tried. */
  function Terms(r: Role): seq<string>
  {
    match r
    case Grow => ["grow", "veg", "vegetative"]
    case Bloom => ["bloom", "flower", "fruit"]
    case Micro => ["micro", "trace"]
    case CalMag => ["cal", "mag", "calcium", "magnesium"]
  }

  /** The position of a role's group in the search order. */
  function Priority(r: Role): nat
  {
    match r
    case Grow => 0
    case Bloom => 1
    case Micro => 2
    case CalMag => 3
  }

  predicate ContainsAny(s: string, terms: seq<string>)
  {
    exists i :: 0 <= i < |terms| && Contains(s, terms[i])
  }

  /** The name matches one of the role's terms. */
  predicate Matches(name: string, r: Role)
  {
    ContainsAny(name, Terms(r))
  }

  /**
   * The role of a pump: the first group, in the order grow, bloom, micro,
   * calmag, with a term occurring in the name; grow when none occurs.
   */
  function ClassifyPump(p: Pump): Role
  {
    var name := RoleText(p);
    if Matches(name, Grow) then Grow
    else if Matches(name, Bloom) then Bloom
    else if Matches(name, Micro) then Micro
    else if Matches(name, CalMag) then CalMag
    else Grow
  }

  /**
   * The role found matches the pump's text, unless nothing matches and the
   * default applies, and no group searched earlier matches.
   */
  lemma ClassifyPumpCorrect(p: Pump)
    ensures var r := ClassifyPump(p);
      (Matches(RoleText(p), r) || (r == Grow && forall g: Role :: !Matches(RoleText(p), g)))
      && forall g: Role :: Priority(g) < Priority(r) ==> !Matches(RoleText(p), g)
  {
  }

  /** The classification ignores letter case. */
  lemma ClassifyIgnoresCase(p: Pump)
    ensures ClassifyPump(p.(name := Upper(p.name), nutrientName := if p.nutrientName.Some? then Some(Upper(p.nutrientName.value)) else None))
         == ClassifyPump(p)
  {
    var q := p.(name := Upper(p.name), nutrientName := if p.nutrientName.Some? then Some(Upper(p.nutrientName.value)) else None);
    if p.nutrientName.Some? {
      LowerUpper(p.nutrientName.value);
      assert (Upper(p.nutrientName.value) != "") == (p.nutrientName.value != "");
    }
    LowerUpper(p.name);
    assert RoleText(q) == RoleText(p);
  }

  lemma LowerUpper(s: string)
    ensures Lower(Upper(s)) == Lower(s)
  {
    assert forall i :: 0 <= i < |s| ==> LowerChar(UpperChar(s[i])) == LowerChar(s[i]);
  }

  /** A non-empty nutrient name decides the role; the pump's own name is then irrelevant. */
  lemma NutrientNameWins(p: Pump, otherName: string)
    requires p.nutrientName.Some? && p.nutrientName.value != ""
    ensures ClassifyPump(p.(name := otherName)) == ClassifyPump(p)
  {
  }

  /** A grow term wins over a calcium term. */
  lemma ClassifyGrowFirst()
    ensures ClassifyPump(NewPump("Calcium Veg", "nutrient", 22, 1.0)) == Grow
  {
    CalciumVegMatches("Calcium Veg");
  }

  lemma CalciumVegMatches(t: string)
    requires t == "Calcium Veg"
    ensures Matches(Lower(t), Grow)
  {
    var s := Lower(t);
    assert t[8] == 'V' && t[9] == 'e' && t[10] == 'g';
    assert s[8] == 'v' && s[9] == 'e' && s[10] == 'g';
    assert s[8..11] == "veg";
    assert OccursAt(s, Terms(Grow)[1], 8);
  }

  /** A bloom term wins over a micro term. */
  lemma ClassifyBloomBeforeMicro()
    ensures ClassifyPump(NewPump("Micro Bloom", "nutrient", 23, 1.0)) == Bloom
  {
    MicroBloomLower("Micro Bloom");
    MicroBloomMatches();
  }

  lemma MicroBloomLower(t: string)
    requires t == "Micro Bloom"
    ensures Lower(t) == "micro bloom"
  {
    var s := Lower(t);
    assert s[0] == 'm' && s[6] == 'b';
  }

  lemma MicroBloomMatches()
    ensures !Matches("micro bloom", Grow) && Matches("micro bloom", Bloom)
  {
    var s := "micro bloom";
    LacksFirstChar(s, "grow");
    LacksFirstChar(s, "veg");
    LacksFirstChar(s, "vegetative");
    assert OccursAt(s, Terms(Bloom)[0], 6);
  }

  /** A name with no term of any group defaults to grow. */
  lemma ClassifyDefault()
    ensures ClassifyPump(NewPump("Pure A", "nutrient", 26, 1.0)) == Grow
  {
    var s := "pure a";
    PureALower("Pure A");
    forall g: Role, i | 0 <= i < |Terms(g)| ensures !Contains(s, Terms(g)[i]) {
      LacksFirstChar(s, Terms(g)[i]);
    }
  }

  lemma PureALower(t: string)
    requires t == "Pure A"
    ensures Lower(t) == "pure a"
  {
    var s := Lower(t);
    assert s[0] == 'p' && s[5] == 'a';
  }

  // ---------------------------------------------------------------------
  // Incompatibilities (check_incompatibility)
  // ---------------------------------------------------------------------

  /** `(p.nutrient_name or '').lower()`. */
  function NutrientText(p: Pump): string
  {
    Lower(if p.nutrientName.Some? then p.nutrientName.value else "")
  }

  /** The pumps whose nutrient name contains `term`, in order. */
  function PumpsNaming(pumps: seq<Pump>, term: string): (r: seq<Pump>)
    ensures forall p :: p in r <==> p in pumps && Contains(NutrientText(p), term)
  {
    if pumps == [] then []
    else (if Contains(NutrientText(pumps[0]), term) then [pumps[0]] else []) + PumpsNaming(pumps[1..], term)
  }

  function Refs(pumps: seq<Pump>): (r: seq<PumpRef>)
    ensures |r| == |pumps|
    ensures forall i :: 0 <= i < |pumps| ==> r[i] == PumpRef(pumps[i].id, pumps[i].name)
  {
    if pumps == [] then [] else [PumpRef(pumps[0].id, pumps[0].name)] + Refs(pumps[1..])
  }

  const MIXING_MESSAGE := "Calcium products should not be mixed directly with phosphates"

  /**
   * One 'mixing' warning exactly when some pump's nutrient name mentions calcium
   * ('cal') and some pump's mentions phosphate ('phos'), listing the calcium pumps
   * and then the phosphate pumps.
   */
  function CheckIncompatibility(pumps: seq<Pump>): (r: seq<Incompatibility>)
    ensures |r| <= 1
    ensures r != [] <==> SomeNaming(pumps, "cal") && SomeNaming(pumps, "phos")
    ensures r != [] ==>
      (r[0].kind == "mixing" && r[0].pumps == Refs(PumpsNaming(pumps, "cal") + PumpsNaming(pumps, "phos")))
  {
    var cal := PumpsNaming(pumps, "cal");
    var phos := PumpsNaming(pumps, "phos");
    assert cal != [] ==> cal[0] in cal;
    assert phos != [] ==> phos[0] in phos;
    if cal != [] && phos != [] then
      [Incompatibility("mixing", MIXING_MESSAGE, Refs(cal + phos))]
    else
      []
  }

  /** Some pump's nutrient name contains `term`. */
  predicate SomeNaming(pumps: seq<Pump>, term: string)
  {
    exists p :: p in pumps && Contains(NutrientText(p), term)
  }

  /** The pumps' display names play no part in the check. */
  lemma IncompatibilityIgnoresNames(pumps: seq<Pump>, renamed: seq<Pump>)
    requires |renamed| == |pumps|
    requires forall i :: 0 <= i < |pumps| ==> renamed[i].nutrientName == pumps[i].nutrientName
    ensures (CheckIncompatibility(renamed) == []) == (CheckIncompatibility(pumps) == [])
  {
    SameNaming(pumps, renamed, "cal");
    SameNaming(pumps, renamed, "phos");
  }

  lemma SameNaming(pumps: seq<Pump>, renamed: seq<Pump>, term: string)
    requires |renamed| == |pumps|
    requires forall i :: 0 <= i < |pumps| ==> renamed[i].nutrientName == pumps[i].nutrientName
    ensures SomeNaming(pumps, term) <==> SomeNaming(renamed, term)
  {
    if SomeNaming(pumps, term) {
      var p :| p in pumps && Contains(NutrientText(p), term);
      var i :| 0 <= i < |pumps| && pumps[i] == p;
      assert NutrientText(renamed[i]) == NutrientText(p);
      assert renamed[i] in renamed;
    }
    if SomeNaming(renamed, term) {
      var q :| q in renamed && Contains(NutrientText(q), term);
      var i :| 0 <= i < |renamed| && renamed[i] == q;
      assert NutrientText(pumps[i]) == NutrientText(q);
      assert pumps[i] in pumps;
    }
  }

  // ---------------------------------------------------------------------
  // Building and ordering components
  // ---------------------------------------------------------------------

  /** `type_order`: calmag first, then micro, grow, bloom. */
  function DosingOrder(r: Role): (n: int)
    ensures 1 <= n <= 4
  {
    match r
    case CalMag => 1
    case Micro => 2
    case Grow => 3
    case Bloom => 4
  }

  lemma DosingOrderInjective(a: Role, b: Role)
    ensures DosingOrder(a) == DosingOrder(b) ==> a == b
  {
  }

  /** The profile's ratio for a role, 1.0 when the role has none. */
  function RatioFor(ratios: map<string, real>, r: Role): (x: real)
    ensures RoleKey(r) in ratios ==> x == ratios[RoleKey(r)]
    ensures RoleKey(r) !in ratios ==> x == 1.0
  {
    if RoleKey(r) in ratios then ratios[RoleKey(r)] else 1.0
  }

  /** The component for one pump: its role, that role's dosing order and ratio. */
  function NewComponent(p: Pump, ratios: map<string, real>): Component
  {
    var r := ClassifyPump(p);
    Component(p.id, p.name, RatioFor(ratios, r), Some(r), Some(DosingOrder(r)), None, None, None, None)
  }

  /** One component per enabled pump, in pump order. */
  function Unsorted(pumps: seq<Pump>, ratios: map<string, real>): (cs: seq<Component>)
    ensures |cs| <= |pumps|
    ensures (forall p :: p in pumps ==> p.enabled) ==> |cs| == |pumps|
    ensures forall c :: c in cs ==> c.role.Some? && c.order == Some(DosingOrder(c.role.value))
  {
    if pumps == [] then []
    else (if pumps[0].enabled then [NewComponent(pumps[0], ratios)] else []) + Unsorted(pumps[1..], ratios)
  }

  lemma UnsortedStep(pumps: seq<Pump>, ratios: map<string, real>, i: int)
    requires 0 <= i < |pumps|
    ensures Unsorted(pumps[i..], ratios)
      == (if pumps[i].enabled then [NewComponent(pumps[i], ratios)] else []) + Unsorted(pumps[i + 1..], ratios)
  {
    assert pumps[i..][1..] == pumps[i + 1..];
  }

  /** One iteration of the append loop keeps the collected prefix plus the rest equal to the whole. */
  lemma CollectStep(cs: seq<Component>, pumps: seq<Pump>, ratios: map<string, real>, i: int)
    requires 0 <= i < |pumps| && cs + Unsorted(pumps[i..], ratios) == Unsorted(pumps, ratios)
    ensures (if pumps[i].enabled then cs + [NewComponent(pumps[i], ratios)] else cs)
      + Unsorted(pumps[i + 1..], ratios) == Unsorted(pumps, ratios)
  {
    UnsortedStep(pumps, ratios, i);
    var rest := Unsorted(pumps[i + 1..], ratios);
    if pumps[i].enabled {
      var c := NewComponent(pumps[i], ratios);
      assert cs + ([c] + rest) == cs + [c] + rest;
    } else {
      assert [] + rest == rest;
    }
  }

  /** The sort key `x.get('dosing_order', 99)`. */
  function Key(c: Component): int
  {
    c.order.GetOr(99)
  }

  /** Keys never decrease from one element to the next. */
  predicate SortedByOrder(s: seq<Component>)
  {
    |s| <= 1 || (Key(s[0]) <= Key(s[1]) && SortedByOrder(s[1..]))
  }

  /** In a sorted list every earlier key is at most every later key. */
  lemma {:induction false} SortedPairwise(s: seq<Component>, i: int, j: int)
    requires SortedByOrder(s) && 0 <= i < j < |s|
    ensures Key(s[i]) <= Key(s[j])
    decreases j - i
  {
    if i + 1 < j {
      SortedPairwise(s, i + 1, j);
      SortedStep(s, i);
    } else {
      SortedStep(s, i);
    }
  }

  lemma {:induction false} SortedStep(s: seq<Component>, i: int)
    requires SortedByOrder(s) && 0 <= i < |s| - 1
    ensures Key(s[i]) <= Key(s[i + 1])
  {
    if i > 0 {
      SortedStep(s[1..], i - 1);
    }
  }

  /** Insert after every element whose key is not larger (so equal keys keep their order). */
  function Insert(c: Component, s: seq<Component>): (r: seq<Component>)
    ensures |r| == |s| + 1
  {
    if s == [] then [c]
    else if Key(c) < Key(s[0]) then [c] + s
    else [s[0]] + Insert(c, s[1..])
  }

  /** `list.sort(key=dosing order)`: a stable sort, here an insertion sort. */
  function SortByOrder(cs: seq<Component>): (r: seq<Component>)
    ensures |r| == |cs|
  {
    if cs == [] then [] else Insert(cs[|cs| - 1], SortByOrder(cs[..|cs| - 1]))
  }

  /** The elements with one key, in order. */
  function WithKey(s: seq<Component>, k: int): (r: seq<Component>)
    ensures |r| <= |s|
  {
    if s == [] then [] else (if Key(s[0]) == k then [s[0]] else []) + WithKey(s[1..], k)
  }

  lemma {:induction false} WithKeyAppend(a: seq<Component>, b: seq<Component>, k: int)
    ensures WithKey(a + b, k) == WithKey(a, k) + WithKey(b, k)
  {
    if a != [] {
      WithKeyAppend(a[1..], b, k);
      assert (a + b)[1..] == a[1..] + b;
    } else {
      assert a + b == b;
    }
  }

  lemma {:induction false} InsertMultiset(c: Component, s: seq<Component>)
    ensures multiset(Insert(c, s)) == multiset(s) + multiset{c}
  {
    if s != [] && Key(c) >= Key(s[0]) {
      InsertMultiset(c, s[1..]);
      assert s == [s[0]] + s[1..];
    }
  }

  lemma {:induction false} InsertSorted(c: Component, s: seq<Component>)
    requires SortedByOrder(s)
    ensures SortedByOrder(Insert(c, s))
    ensures Insert(c, s)[0] == c || (s != [] && Insert(c, s)[0] == s[0])
  {
    if s != [] && Key(c) >= Key(s[0]) {
      InsertSorted(c, s[1..]);
      assert Insert(c, s)[1..] == Insert(c, s[1..]);
    }
  }

  lemma {:induction false} WithKeyAboveAll(s: seq<Component>, k: int)
    requires SortedByOrder(s) && s != [] && Key(s[0]) > k
    ensures WithKey(s, k) == []
  {
    if |s| > 1 {
      WithKeyAboveAll(s[1..], k);
    }
  }

  lemma {:induction false} InsertWithKey(c: Component, s: seq<Component>, k: int)
    requires SortedByOrder(s)
    ensures WithKey(Insert(c, s), k) == WithKey(s, k) + (if Key(c) == k then [c] else [])
  {
    if s == [] {
    } else if Key(c) < Key(s[0]) {
      InsertFrontWithKey(c, s, k);
    } else {
      InsertWithKey(c, s[1..], k);
      assert Insert(c, s)[1..] == Insert(c, s[1..]);
    }
  }

  lemma InsertFrontWithKey(c: Component, s: seq<Component>, k: int)
    requires SortedByOrder(s) && s != [] && Key(c) < Key(s[0])
    ensures WithKey(Insert(c, s), k) == WithKey(s, k) + (if Key(c) == k then [c] else [])
  {
    assert Insert(c, s) == [c] + s;
    assert ([c] + s)[1..] == s;
    if Key(c) == k {
      WithKeyAboveAll(s, k);
    }
  }

  /** The sort orders by key. */
  lemma {:induction false} SortByOrderSorted(cs: seq<Component>)
    ensures SortedByOrder(SortByOrder(cs))
  {
    if cs != [] {
      SortByOrderSorted(cs[..|cs| - 1]);
      InsertSorted(cs[|cs| - 1], SortByOrder(cs[..|cs| - 1]));
    }
  }

  /** The sort keeps every element, as often as it occurs. */
  lemma {:induction false} SortByOrderPermutes(cs: seq<Component>)
    ensures multiset(SortByOrder(cs)) == multiset(cs)
  {
    if cs != [] {
      var init := cs[..|cs| - 1];
      SortByOrderPermutes(init);
      InsertMultiset(cs[|cs| - 1], SortByOrder(init));
      assert cs == init + [cs[|cs| - 1]];
    }
  }

  lemma SortByOrderMember(cs: seq<Component>, c: Component)
    requires c in SortByOrder(cs)
    ensures c in cs
  {
    SortByOrderPermutes(cs);
    assert c in multiset(SortByOrder(cs));
  }

  /** The sort is stable: the elements with any one key keep their input order. */
  lemma {:induction false} SortByOrderStable(cs: seq<Component>, k: int)
    ensures WithKey(SortByOrder(cs), k) == WithKey(cs, k)
  {
    if cs != [] {
      var init := cs[..|cs| - 1];
      var last := cs[|cs| - 1];
      SortByOrderStable(init, k);
      SortByOrderSorted(init);
      InsertWithKey(last, SortByOrder(init), k);
      WithKeyAppend(init, [last], k);
      assert cs == init + [last];
    }
  }

  /** In a built component list every calcium/magnesium component comes before every bloom component. */
  lemma CalMagBeforeBloom(pumps: seq<Pump>, ratios: map<string, real>, i: int, j: int)
    requires var s := SortByOrder(Unsorted(pumps, ratios));
      0 <= i < |s| && 0 <= j < |s| && s[i].role == Some(CalMag) && s[j].role == Some(Bloom)
    ensures i < j
  {
    var u := Unsorted(pumps, ratios);
    var s := SortByOrder(u);
    SortByOrderMember(u, s[i]);
    SortByOrderMember(u, s[j]);
    if j < i {
      SortByOrderSorted(u);
      SortedPairwise(s, j, i);
    }
  }

  /** `new_components` for one profile: a component per enabled pump, sorted by dosing order. */
  method BuildComponents(pumps: seq<Pump>, ratios: map<string, real>) returns (cs: seq<Component>)
    ensures cs == SortByOrder(Unsorted(pumps, ratios))
    ensures SortedByOrder(cs) && multiset(cs) == multiset(Unsorted(pumps, ratios))
  {
    var unsorted := CollectComponents(pumps, ratios);
    cs := SortByOrder(unsorted);
    SortByOrderSorted(unsorted);
    SortByOrderPermutes(unsorted);
  }

  /** The append loop: a component per enabled pump, in pump order. */
  method CollectComponents(pumps: seq<Pump>, ratios: map<string, real>) returns (cs: seq<Component>)
    ensures cs == Unsorted(pumps, ratios)
  {
    cs := [];
    var i := 0;
    assert pumps[i..] == pumps;
    while i < |pumps|
      invariant 0 <= i <= |pumps|
      invariant cs + Unsorted(pumps[i..], ratios) == Unsorted(pumps, ratios)
    {
      CollectStep(cs, pumps, ratios, i);
      if pumps[i].enabled {
        cs := cs + [NewComponent(pumps[i], ratios)];
      }
      i := i + 1;
    }
    assert pumps[i..] == [];
    assert cs + [] == cs;
  }

  // ---------------------------------------------------------------------
  // Replacing a profile's components
  // ---------------------------------------------------------------------

  /** `profile.get('custom', True)` is truthy, or `nutrient_ratios` is missing or empty. */
  predicate Skips(p: Profile)
  {
    p.custom.GetOr(true) || p.ratios.GetOr(map[]) == map[]
  }

  /** The number of stored components, 0 when the key is absent. */
  function StoredCount(p: Profile): nat
  {
    |p.components.GetOr([])|
  }

  /**
   * The first pass for one profile: the profile after it, and whether its component
   * list was replaced.
   */
  function Replaced(p: Profile, pumps: seq<Pump>): (r: (Profile, bool))
    ensures !r.1 ==> r.0 == p
    ensures r.1 ==> !Skips(p) && r.0 == p.(components := Some(SortByOrder(Unsorted(pumps, p.ratios.value))))
    ensures r.1 <==> !Skips(p) && Unsorted(pumps, p.ratios.value) != []
                     && |Unsorted(pumps, p.ratios.value)| != StoredCount(p)
  {
    if Skips(p) then (p, false)
    else
      var rebuilt := SortByOrder(Unsorted(pumps, p.ratios.value));
      if rebuilt != [] && |rebuilt| != StoredCount(p) then (p.(components := Some(rebuilt)), true)
      else (p, false)
  }

  /** Custom profiles and profiles without ratios keep their components. */
  lemma SkippedProfilesUntouched(p: Profile, pumps: seq<Pump>)
    requires p.custom != Some(false) || p.ratios.GetOr(map[]) == map[]
    ensures Replaced(p, pumps) == (p, false)
  {
  }

  /** With no nutrient pumps no profile loses its components. */
  lemma NoPumpsKeepComponents(p: Profile)
    ensures Replaced(p, []) == (p, false)
  {
  }

  // ---------------------------------------------------------------------
  // Doses
  // ---------------------------------------------------------------------

  /** `sum(comp.get('ratio', 0) ...)`. */
  function TotalRatio(cs: seq<Component>): real
  {
    if cs == [] then 0.0 else cs[0].ratio + TotalRatio(cs[1..])
  }

  /** About 3 ml per litre at 1350 µS/cm, proportional to the profile's EC setpoint (1350 when absent). */
  function BaseDose(p: Profile): real
  {
    p.ecSetpoint.GetOr(1350.0) / 1350.0 * 3.0
  }

  /** A component's share of the base dose before rounding. */
  function RawPerLitre(c: Component, total: real, base: real): real
    requires total > 0.0
  {
    c.ratio / total * base
  }

  /** One component with its dose: ml per litre, and per US gallon (3.785 l), each rounded to 2 places. */
  function DoseOf(c: Component, total: real, base: real): (r: Component)
    requires total > 0.0
    ensures r == c.(perLitre := r.perLitre, perGallon := r.perGallon)
    ensures r.perLitre.Some? && r.perGallon.Some?
  {
    var raw := RawPerLitre(c, total, base);
    c.(perLitre := Some(Round2(raw)), perGallon := Some(Round2(raw * 3.785)))
  }

  function Dosed(cs: seq<Component>, total: real, base: real): (r: seq<Component>)
    requires total > 0.0
    ensures |r| == |cs|
    ensures forall i :: 0 <= i < |cs| ==> r[i] == DoseOf(cs[i], total, base)
  {
    if cs == [] then [] else [DoseOf(cs[0], total, base)] + Dosed(cs[1..], total, base)
  }

  /** The second pass for one profile: doses for a non-empty component list with a positive ratio sum. */
  function WithDoses(p: Profile): (r: Profile)
    ensures r == p.(components := r.components)
    ensures r.components.Some? <==> p.components.Some?
    ensures StoredCount(r) == StoredCount(p)
  {
    if p.components.Some? && p.components.value != [] && TotalRatio(p.components.value) > 0.0 then
      p.(components := Some(Dosed(p.components.value, TotalRatio(p.components.value), BaseDose(p))))
    else p
  }

  function SumRawPerLitre(cs: seq<Component>, total: real, base: real): real
    requires total > 0.0
  {
    if cs == [] then 0.0 else RawPerLitre(cs[0], total, base) + SumRawPerLitre(cs[1..], total, base)
  }

  lemma {:induction false} SumRawIsShare(cs: seq<Component>, total: real, base: real)
    requires total > 0.0
    ensures SumRawPerLitre(cs, total, base) == TotalRatio(cs) * (base / total)
  {
    if cs != [] {
      SumRawIsShare(cs[1..], total, base);
      assert RawPerLitre(cs[0], total, base) == cs[0].ratio * (base / total);
    }
  }

  /** Before rounding, the per-litre doses of a profile add up to its base dose. */
  lemma PerLitreSumsToBase(p: Profile)
    requires p.components.Some? && TotalRatio(p.components.value) > 0.0
    ensures SumRawPerLitre(p.components.value, TotalRatio(p.components.value), BaseDose(p)) == BaseDose(p)
  {
    var cs := p.components.value;
    SumRawIsShare(cs, TotalRatio(cs), BaseDose(p));
  }

  /** Before rounding, a component's dose scales linearly with the profile's EC setpoint. */
  lemma PerLitreLinearInEc(c: Component, total: real, ec: real, k: real)
    requires total > 0.0
    ensures RawPerLitre(c, total, (k * ec) / 1350.0 * 3.0) == k * RawPerLitre(c, total, ec / 1350.0 * 3.0)
  {
    assert (k * ec) / 1350.0 * 3.0 == k * (ec / 1350.0 * 3.0);
    var b := ec / 1350.0 * 3.0;
    calc {
      RawPerLitre(c, total, k * b);
      c.ratio / total * (k * b);
      k * (c.ratio / total * b);
    }
  }

  // ---------------------------------------------------------------------
  // The whole configuration
  // ---------------------------------------------------------------------

  /** The enabled pumps of type 'nutrient', in table order. */
  function NutrientPumps(rows: seq<Pump>): seq<Pump>
  {
    ByType(rows, "nutrient")
  }

  /** The nutrient pumps are exactly the enabled rows of type `nutrient`. */
  lemma NutrientPumpsMembers(rows: seq<Pump>, p: Pump)
    ensures p in NutrientPumps(rows) <==> p in rows && p.kind == "nutrient" && p.enabled
  {
  }

  datatype ConfigResult = ConfigResult(updated: bool, pumpsFound: nat, incompatibilities: seq<Incompatibility>)

  /** Some profile's component list is replaced by the first pass. */
  predicate AnyReplaced(ps: map<string, Profile>, pumps: seq<Pump>)
  {
    exists k :: k in ps && Replaced(ps[k], pumps).1
  }

  /** Every profile after both passes. */
  function Reconfigured(ps: map<string, Profile>, pumps: seq<Pump>): (r: map<string, Profile>)
    ensures r.Keys == ps.Keys
  {
    map k | k in ps :: WithDoses(Replaced(ps[k], pumps).0)
  }

  /** The profiles as persisted: the new ones only when some list was replaced. */
  function Persisted(ps: map<string, Profile>, pumps: seq<Pump>): map<string, Profile>
  {
    if AnyReplaced(ps, pumps) then Reconfigured(ps, pumps) else ps
  }

  lemma ReplacedSettles(p: Profile, pumps: seq<Pump>)
    ensures !Replaced(WithDoses(Replaced(p, pumps).0), pumps).1
  {
  }

  /** Running the configuration again on what it persisted changes nothing. */
  lemma RerunNotUpdated(ps: map<string, Profile>, pumps: seq<Pump>)
    ensures !AnyReplaced(Persisted(ps, pumps), pumps)
  {
    if AnyReplaced(ps, pumps) {
      var q := Reconfigured(ps, pumps);
      forall k | k in q ensures !Replaced(q[k], pumps).1 {
        ReplacedSettles(ps[k], pumps);
      }
    }
  }

  /** With no enabled nutrient pumps nothing is replaced, so nothing is persisted. */
  lemma NoPumpsNoUpdate(ps: map<string, Profile>)
    ensures !AnyReplaced(ps, []) && Persisted(ps, []) == ps
  {
  }

  /** `sum(c['ratio'] for c in components)`. */
  method SumRatios(cs: seq<Component>) returns (total: real)
    ensures total == TotalRatio(cs)
  {
    total := 0.0;
    var i := |cs|;
    while i > 0
      invariant 0 <= i <= |cs|
      invariant total == TotalRatio(cs[i..])
    {
      i := i - 1;
      assert cs[i..][1..] == cs[i + 1..];
      total := total + cs[i].ratio;
    }
  }

  /** Each component's share of the base dose, in ml per litre and per gallon, rounded to 2 places. */
  method DoseEach(cs: seq<Component>, total: real, base: real) returns (dosed: seq<Component>)
    requires total > 0.0
    ensures dosed == Dosed(cs, total, base)
  {
    dosed := [];
    var j := 0;
    while j < |cs|
      invariant 0 <= j <= |cs|
      invariant |dosed| == j
      invariant forall i :: 0 <= i < j ==> dosed[i] == DoseOf(cs[i], total, base)
    {
      dosed := dosed + [DoseOf(cs[j], total, base)];
      j := j + 1;
    }
  }

  /** The doses of one profile, computed as the code does: first the ratio sum, then each component. */
  method ComputeDoses(p: Profile) returns (r: Profile)
    ensures r == WithDoses(p)
  {
    r := p;
    if p.components.Some? && p.components.value != [] {
      var cs := p.components.value;
      var total := SumRatios(cs);
      if total > 0.0 {
        var dosed := DoseEach(cs, total, BaseDose(p));
        r := p.(components := Some(dosed));
      }
    }
  }

  /** The first pass for one profile: rebuild its components when it takes part and the count differs. */
  method ReplaceComponents(p: Profile, pumps: seq<Pump>) returns (next: Profile, changed: bool)
    ensures (next, changed) == Replaced(p, pumps)
  {
    next := p;
    changed := false;
    if !Skips(p) {
      var rebuilt := BuildComponents(pumps, p.ratios.value);
      if rebuilt != [] && |rebuilt| != StoredCount(p) {
        next := p.(components := Some(rebuilt));
        changed := true;
      }
    }
  }

  /** The first pass over all profiles; `updated` tells whether any list was replaced. */
  method FirstPass(ps: map<string, Profile>, pumps: seq<Pump>) returns (staged: map<string, Profile>, updated: bool)
    ensures staged.Keys == ps.Keys
    ensures forall k :: k in staged ==> staged[k] == Replaced(ps[k], pumps).0
    ensures updated == AnyReplaced(ps, pumps)
  {
    staged := map[];
    updated := false;
    var todo := ps.Keys;
    while todo != {}
      invariant todo <= ps.Keys
      invariant staged.Keys == ps.Keys - todo
      invariant forall k :: k in staged ==> staged[k] == Replaced(ps[k], pumps).0
      invariant updated <==> exists k :: k in staged && Replaced(ps[k], pumps).1
      decreases todo
    {
      var k :| k in todo;
      var next, changed := ReplaceComponents(ps[k], pumps);
      staged := staged[k := next];
      updated := updated || changed;
      todo := todo - {k};
    }
  }

  /** The second pass: doses for every profile. */
  method SecondPass(staged: map<string, Profile>) returns (done: map<string, Profile>)
    ensures done.Keys == staged.Keys
    ensures forall k :: k in done ==> done[k] == WithDoses(staged[k])
  {
    done := map[];
    var todo := staged.Keys;
    while todo != {}
      invariant todo <= staged.Keys
      invariant done.Keys == staged.Keys - todo
      invariant forall k :: k in done ==> done[k] == WithDoses(staged[k])
      decreases todo
    {
      var k :| k in todo;
      var dosedProfile := ComputeDoses(staged[k]);
      done := done[k := dosedProfile];
      todo := todo - {k};
    }
  }

  /** The two passes together compute `Reconfigured`. */
  lemma PassesCompose(ps: map<string, Profile>, pumps: seq<Pump>, staged: map<string, Profile>, done: map<string, Profile>)
    requires staged.Keys == ps.Keys && forall k :: k in staged ==> staged[k] == Replaced(ps[k], pumps).0
    requires done.Keys == staged.Keys && forall k :: k in done ==> done[k] == WithDoses(staged[k])
    ensures done == Reconfigured(ps, pumps)
  {
  }

  /** Both passes over a copy of the profiles, with the incompatibility check beside them. */
  method BothPasses(ps: map<string, Profile>, rows: seq<Pump>) returns (res: ConfigResult, done: map<string, Profile>)
    ensures res.updated == AnyReplaced(ps, NutrientPumps(rows))
    ensures res.pumpsFound == |NutrientPumps(rows)|
    ensures res.incompatibilities == CheckIncompatibility(NutrientPumps(rows))
    ensures done == Reconfigured(ps, NutrientPumps(rows))
  {
    var pumps := NutrientPumps(rows);
    var staged, updated := FirstPass(ps, pumps);
    done := SecondPass(staged);
    PassesCompose(ps, pumps, staged, done);
    res := ConfigResult(updated, |pumps|, CheckIncompatibility(pumps));
  }

  /**
   * `Settings.auto_configure_nutrient_components` over the pumps table `rows`: store the
   * incompatibilities (always), replace component lists in a first pass, compute doses
   * in a second pass, and persist the profiles only when some list was replaced.
   */
  method AutoConfigure(store: Store, rows: seq<Pump>) returns (res: ConfigResult)
    modifies store
    ensures res.updated == AnyReplaced(old(store.ProfileMap()), NutrientPumps(rows))
    ensures res.pumpsFound == |NutrientPumps(rows)|
    ensures res.incompatibilities == CheckIncompatibility(NutrientPumps(rows))
    ensures store.incompatibilities == Some(res.incompatibilities)
    ensures store.profiles == if res.updated then Some(Reconfigured(old(store.ProfileMap()), NutrientPumps(rows)))
                              else old(store.profiles)
    ensures store.values == old(store.values)
  {
    var done;
    res, done := BothPasses(store.ProfileMap(), rows);
    store.incompatibilities := Some(res.incompatibilities);
    if res.updated {
      store.profiles := Some(done);
    }
  }

  /** A built-in profile with grow:bloom ratios 1:2 at 1350 µS/cm, and one grow and one bloom pump. */
  function WorkedProfile(): Profile
  {
    BuiltIn("Test", "", 6.0, 1350.0, 150.0, 18.0, 28.0, map["grow" := 1.0, "bloom" := 2.0])
  }

  function WorkedPumps(): seq<Pump>
  {
    [NewPump("Grow", "nutrient", 22, 1.0).(id := 1), NewPump("Bloom", "nutrient", 23, 1.0).(id := 2)]
  }

  /** The first pass gives the profile a grow component (ratio 1) and then a bloom component (ratio 2). */
  lemma WorkedReplaced()
    ensures var cs := Replaced(WorkedProfile(), WorkedPumps()).0.components;
      cs.Some? && |cs.value| == 2
      && cs.value[0].pumpId == 1 && cs.value[0].role == Some(Grow) && cs.value[0].ratio == 1.0
      && cs.value[1].pumpId == 2 && cs.value[1].role == Some(Bloom) && cs.value[1].ratio == 2.0
  {
    var p, pumps := WorkedProfile(), WorkedPumps();
    var ratios := p.ratios.value;
    WorkedComponents();
    var cg := NewComponent(pumps[0], ratios);
    var cb := NewComponent(pumps[1], ratios);
    WorkedUnsorted();
    SortTwo(cg, cb);
    WorkedTakesPart();
    assert Replaced(p, pumps).0.components == Some([cg, cb]);
  }

  /** The worked profile takes part in the first pass and has no stored components. */
  lemma WorkedTakesPart()
    ensures !Skips(WorkedProfile()) && StoredCount(WorkedProfile()) == 0
    ensures WorkedProfile().ratios == Some(map["grow" := 1.0, "bloom" := 2.0])
  {
    assert "grow" in WorkedProfile().ratios.value;
  }

  lemma WorkedComponents()
    ensures var pumps, ratios := WorkedPumps(), WorkedProfile().ratios.value;
      var cg, cb := NewComponent(pumps[0], ratios), NewComponent(pumps[1], ratios);
      && cg.pumpId == 1 && cg.role == Some(Grow) && cg.ratio == 1.0 && Key(cg) == 3
      && cb.pumpId == 2 && cb.role == Some(Bloom) && cb.ratio == 2.0 && Key(cb) == 4
  {
    GrowBloomClassified();
  }

  lemma WorkedUnsorted()
    ensures var pumps, ratios := WorkedPumps(), WorkedProfile().ratios.value;
      Unsorted(pumps, ratios) == [NewComponent(pumps[0], ratios), NewComponent(pumps[1], ratios)]
  {
    var pumps, ratios := WorkedPumps(), WorkedProfile().ratios.value;
    assert pumps[1..][1..] == [];
    assert Unsorted(pumps[1..], ratios) == [NewComponent(pumps[1], ratios)];
  }

  /** Two components already in key order stay in that order. */
  lemma SortTwo(a: Component, b: Component)
    requires Key(a) <= Key(b)
    ensures SortByOrder([a, b]) == [a, b]
  {
    assert [a, b][..1] == [a] && [a][..0] == [];
    assert SortByOrder([a]) == [a];
    assert Insert(b, [a]) == [a] + Insert(b, []);
  }

  /** The second pass then doses 1.0 and 2.0 ml/L, that is 3.78 and 7.57 ml per gallon. */
  lemma WorkedDoseExample()
    ensures var r := WithDoses(Replaced(WorkedProfile(), WorkedPumps()).0);
      r.components.Some? && |r.components.value| == 2
      && r.components.value[0].pumpId == 1 && r.components.value[0].perLitre == Some(1.0)
      && r.components.value[1].pumpId == 2 && r.components.value[1].perLitre == Some(2.0)
      && r.components.value[0].perGallon == Some(3.78) && r.components.value[1].perGallon == Some(7.57)
  {
    WorkedReplaced();
    WorkedTakesPart();
    var q := Replaced(WorkedProfile(), WorkedPumps()).0;
    assert q.ecSetpoint == Some(1350.0);
    DosesOfOneTwo(q);
  }

  /** Two components with ratios 1 and 2 at 1350 µS/cm get 1 and 2 ml per litre. */
  lemma DosesOfOneTwo(q: Profile)
    requires q.components.Some? && |q.components.value| == 2 && q.ecSetpoint == Some(1350.0)
    requires q.components.value[0].ratio == 1.0 && q.components.value[1].ratio == 2.0
    ensures var r := WithDoses(q);
      r.components.Some? && |r.components.value| == 2
      && r.components.value[0].pumpId == q.components.value[0].pumpId && r.components.value[0].perLitre == Some(1.0)
      && r.components.value[1].pumpId == q.components.value[1].pumpId && r.components.value[1].perLitre == Some(2.0)
      && r.components.value[0].perGallon == Some(3.78) && r.components.value[1].perGallon == Some(7.57)
  {
    var cs := q.components.value;
    assert cs[1..][1..] == [];
    assert TotalRatio(cs[1..]) == 2.0;
    assert TotalRatio(cs) == 3.0;
    assert BaseDose(q) == 3.0;
    WorkedRounding();
  }

  lemma GrowBloomClassified()
    ensures ClassifyPump(NewPump("Grow", "nutrient", 22, 1.0).(id := 1)) == Grow
    ensures ClassifyPump(NewPump("Bloom", "nutrient", 23, 1.0).(id := 2)) == Bloom
  {
    GrowText("Grow");
    BloomText("Bloom");
  }

  lemma GrowText(t: string)
    requires t == "Grow"
    ensures Matches(Lower(t), Grow)
  {
    var s := Lower(t);
    assert s == "grow";
    assert OccursAt(s, Terms(Grow)[0], 0);
  }

  lemma BloomText(t: string)
    requires t == "Bloom"
    ensures !Matches(Lower(t), Grow) && Matches(Lower(t), Bloom)
  {
    var s := Lower(t);
    assert s == "bloom";
    LacksFirstChar(s, "grow");
    LacksFirstChar(s, "veg");
    LacksFirstChar(s, "vegetative");
    assert OccursAt(s, Terms(Bloom)[0], 0);
  }

  lemma WorkedRounding()
    ensures Round2(1.0) == 1.0 && Round2(2.0) == 2.0
    ensures Round2(1.0 * 3.785) == 3.78 && Round2(2.0 * 3.785) == 7.57
  {
    assert (378.5).Floor == 378;
    assert (757.0).Floor == 757;
  }
}
