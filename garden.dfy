/**
 * The garden pages: the growth-phase label of a week, and the plant profile
 * handlers (add, delete, duplicate, activate) and grow-cycle week handling,
 * all working on the settings store.
 */
module Garden {
  import opened Common
  import opened SettingsStore
  import opened PumpModel
  import opened AutoConfig

  // ---------------------------------------------------------------------
  // Growth phases
  // ---------------------------------------------------------------------

  /** The label of a week when a profile has no growth-phase text. */
  function DefaultPhase(week: int): string
  {
    if week <= 3 then "Seedling" else if week <= 6 then "Vegetative" else "Flowering"
  }

  /** Line breaks become entry separators. */
  function NormalizeBreaks(text: string): string
  {
    Replace(Replace(text, "\r\n", ","), "\n", ",")
  }

  /** `str.isdigit()` on ASCII text: at least one character, all digits. */
  predicate IsDigitText(s: string)
  {
    s != [] && AllDigits(s)
  }

  /** Text before a colon that reads as weeks ("1-3", "4", "7 - 12"). */
  predicate LooksLikeWeeks(s: string)
  {
    IsDigitText(RemoveChar(RemoveChar(s, '-'), ' ')) || IsDigitText(s)
  }

  /** The position of the first `c` in `s`. */
  function FirstIndex(s: string, c: char): (i: nat)
    requires c in s
    ensures i < |s| && s[i] == c && c !in s[..i]
  {
    if s[0] == c then 0
    else
      assert c in s[1..] by {
        var k :| 0 <= k < |s| && s[k] == c;
        assert s[1..][k - 1] == c;
      }
      var j := FirstIndex(s[1..], c);
      assert s[..j + 1] == [s[0]] + s[1..][..j];
      j + 1
  }

  /** `s.split(c, 1)` when `c` occurs in `s`: the text before the first `c` and the text after it. */
  function SplitOnce(s: string, c: char): (parts: (string, string))
    requires c in s
    ensures s == parts.0 + [c] + parts.1 && c !in parts.0
  {
    var i := FirstIndex(s, c);
    assert s == s[..i] + [c] + s[i + 1..];
    (s[..i], s[i + 1..])
  }

  /** One phase entry: a label and the text naming its weeks. */
  datatype Entry = Entry(name: string, weeks: string)

  /**
   * An entry of the growth-phase text, either "name: weeks" or "weeks: name";
   * None for a blank entry or one without a colon, which is skipped.
   */
  function ParseEntry(raw: string): (e: Option<Entry>)
    ensures e.Some? <==> Strip(raw) != [] && ':' in Strip(raw)
  {
    var entry := Strip(raw);
    if entry == [] || ':' !in entry then None
    else
      var parts := SplitOnce(entry, ':');
      var left := Strip(parts.0);
      var right := Strip(parts.1);
      if LooksLikeWeeks(left) then Some(Entry(right, left)) else Some(Entry(left, right))
  }

  /**
   * The inclusive week bounds a piece names: "a-b" with both ends integers, or a
   * single integer as a one-week range; None for a piece that is skipped.
   */
  function WeekBounds(piece: string): Option<(int, int)>
  {
    var p := Strip(piece);
    if '-' in p then
      var ends := Split(p, '-');
      if |ends| == 2 && ParseInt(ends[0]).Some? && ParseInt(ends[1]).Some? then
        Some((ParseInt(ends[0]).value, ParseInt(ends[1]).value))
      else None
    else if ParseInt(p).Some? then Some((ParseInt(p).value, ParseInt(p).value))
    else None
  }

  /** Every week from `lo` to `hi` labelled `name`, in increasing order. */
  function AssignRange(phases: map<int, string>, lo: int, hi: int, name: string): map<int, string>
    decreases hi - lo
  {
    if hi < lo then phases else AssignRange(phases, lo, hi - 1, name)[hi := name]
  }

  /** The bounds of each piece, in order. */
  function PiecesBounds(pieces: seq<string>): (r: seq<Option<(int, int)>>)
    ensures |r| == |pieces|
  {
    if pieces == [] then [] else PiecesBounds(pieces[..|pieces| - 1]) + [WeekBounds(pieces[|pieces| - 1])]
  }

  /** The labels after each range of one entry, in order; skipped pieces change nothing. */
  function ApplyBounds(phases: map<int, string>, bounds: seq<Option<(int, int)>>, name: string): map<int, string>
  {
    if bounds == [] then phases
    else
      var before := ApplyBounds(phases, bounds[..|bounds| - 1], name);
      match bounds[|bounds| - 1]
      case Some((lo, hi)) => AssignRange(before, lo, hi, name)
      case None => before
  }

  /** An entry with its week pieces read as ranges. */
  datatype Labels = Labels(name: string, bounds: seq<Option<(int, int)>>)

  /** The label and ranges of one entry of the text, None when it is skipped. */
  function LabelsOf(raw: string): Option<Labels>
  {
    match ParseEntry(raw)
    case None => None
    case Some(e) => Some(Labels(e.name, PiecesBounds(Split(e.weeks, ','))))
  }

  /** The parsed entries, in order. */
  function ParseEntries(raws: seq<string>): (r: seq<Option<Labels>>)
    ensures |r| == |raws|
  {
    if raws == [] then [] else ParseEntries(raws[..|raws| - 1]) + [LabelsOf(raws[|raws| - 1])]
  }

  /** The labels after the entries, in order, starting from no labels. */
  function PhasesOf(entries: seq<Option<Labels>>): map<int, string>
  {
    if entries == [] then map[]
    else
      var before := PhasesOf(entries[..|entries| - 1]);
      match entries[|entries| - 1]
      case None => before
      case Some(e) => ApplyBounds(before, e.bounds, e.name)
  }

  /** The entries of a growth-phase text, parsed. */
  function Entries(text: string): seq<Option<Labels>>
  {
    ParseEntries(Split(NormalizeBreaks(text), ','))
  }

  /** `get_growth_phase_for_week`: the label the profile's growth-phase text gives a week. */
  function GrowthPhase(profile: Profile, week: int): string
  {
    var text := profile.growthPhases.GetOr("");
    if text == [] then DefaultPhase(week)
    else
      var phases := PhasesOf(Entries(text));
      if week in phases then phases[week] else "Unknown"
  }

  /** A range that includes the week. */
  predicate BoundsCover(b: Option<(int, int)>, week: int)
  {
    b.Some? && b.value.0 <= week <= b.value.1
  }

  /** Some range of the entry includes the week. */
  predicate EntryCovers(e: Option<Labels>, week: int)
  {
    e.Some? && exists k :: 0 <= k < |e.value.bounds| && BoundsCover(e.value.bounds[k], week)
  }

  /** Without text, weeks 1-3 are seedlings, 4-6 vegetative and later weeks flowering. */
  lemma DefaultPhases(profile: Profile, week: int)
    requires profile.growthPhases.None? || profile.growthPhases == Some("")
    ensures week <= 3 ==> GrowthPhase(profile, week) == "Seedling"
    ensures 3 < week <= 6 ==> GrowthPhase(profile, week) == "Vegetative"
    ensures 6 < week ==> GrowthPhase(profile, week) == "Flowering"
  {
  }

  /** A range labels exactly its own weeks, inclusive at both ends, and nothing when reversed. */
  lemma {:induction false} AssignRangeLabels(phases: map<int, string>, lo: int, hi: int, name: string, week: int)
    ensures lo <= week <= hi ==> week in AssignRange(phases, lo, hi, name) && AssignRange(phases, lo, hi, name)[week] == name
    ensures !(lo <= week <= hi) ==> (week in AssignRange(phases, lo, hi, name) <==> week in phases)
    ensures !(lo <= week <= hi) && week in phases ==> AssignRange(phases, lo, hi, name)[week] == phases[week]
    ensures hi < lo ==> AssignRange(phases, lo, hi, name) == phases
    decreases hi - lo
  {
    if lo <= hi {
      AssignRangeLabels(phases, lo, hi - 1, name, week);
    }
  }

  /** The ranges of an entry label the weeks some range covers, and leave every other week alone. */
  lemma {:induction false} ApplyBoundsLabels(phases: map<int, string>, bounds: seq<Option<(int, int)>>, name: string, week: int)
    ensures (exists k :: 0 <= k < |bounds| && BoundsCover(bounds[k], week)) ==>
      week in ApplyBounds(phases, bounds, name) && ApplyBounds(phases, bounds, name)[week] == name
    ensures !(exists k :: 0 <= k < |bounds| && BoundsCover(bounds[k], week)) ==>
      (week in ApplyBounds(phases, bounds, name) <==> week in phases)
      && (week in phases ==> ApplyBounds(phases, bounds, name)[week] == phases[week])
  {
    if bounds != [] {
      var init := bounds[..|bounds| - 1];
      var last := bounds[|bounds| - 1];
      ApplyBoundsLabels(phases, init, name, week);
      var before := ApplyBounds(phases, init, name);
      if last.Some? {
        AssignRangeLabels(before, last.value.0, last.value.1, name, week);
      }
      if exists k :: 0 <= k < |bounds| && BoundsCover(bounds[k], week) {
        var k :| 0 <= k < |bounds| && BoundsCover(bounds[k], week);
        if k < |bounds| - 1 {
          assert BoundsCover(init[k], week);
        }
      } else {
        forall k | 0 <= k < |init|
          ensures !BoundsCover(init[k], week)
        {
          assert init[k] == bounds[k];
        }
      }
    }
  }

  /** An entry naming the week labels it with its name; any other entry leaves its label alone. */
  lemma EntryLabels(entries: seq<Option<Labels>>, e: Option<Labels>, week: int)
    ensures EntryCovers(e, week) ==>
      week in PhasesOf(entries + [e]) && PhasesOf(entries + [e])[week] == e.value.name
    ensures !EntryCovers(e, week) ==>
      (week in PhasesOf(entries + [e]) <==> week in PhasesOf(entries))
      && (week in PhasesOf(entries) ==> PhasesOf(entries + [e])[week] == PhasesOf(entries)[week])
  {
    PhasesOfSnoc(entries, e);
    if e.Some? {
      ApplyBoundsLabels(PhasesOf(entries), e.value.bounds, e.value.name, week);
    }
  }

  /** A week no entry names has no label. */
  lemma {:induction false} UncoveredWeekUnlabelled(entries: seq<Option<Labels>>, week: int)
    requires forall i :: 0 <= i < |entries| ==> !EntryCovers(entries[i], week)
    ensures week !in PhasesOf(entries)
  {
    if entries != [] {
      var init := entries[..|entries| - 1];
      assert init + [entries[|entries| - 1]] == entries;
      UncoveredWeekUnlabelled(init, week);
      EntryLabels(init, entries[|entries| - 1], week);
    }
  }

  /** Entries from position `n` on that do not name the week keep the label the first `n` gave it. */
  lemma {:induction false} LaterEntriesKeep(es: seq<Option<Labels>>, n: int, week: int)
    requires 0 < n <= |es|
    requires week in PhasesOf(es[..n])
    requires forall j :: n <= j < |es| ==> !EntryCovers(es[j], week)
    ensures week in PhasesOf(es) && PhasesOf(es)[week] == PhasesOf(es[..n])[week]
    decreases |es| - n
  {
    if n < |es| {
      EntryLabels(es[..n], es[n], week);
      assert es[..n] + [es[n]] == es[..n + 1];
      LaterEntriesKeep(es, n + 1, week);
    } else {
      assert es[..n] == es;
    }
  }

  /** With a growth-phase text, a week that no entry names is "Unknown". */
  lemma UncoveredWeekIsUnknown(profile: Profile, week: int)
    requires profile.growthPhases.Some? && profile.growthPhases.value != ""
    requires var es := Entries(profile.growthPhases.value);
      forall i :: 0 <= i < |es| ==> !EntryCovers(es[i], week)
    ensures GrowthPhase(profile, week) == "Unknown"
  {
    UncoveredWeekUnlabelled(Entries(profile.growthPhases.value), week);
  }

  /** The last entry that names a week gives its label. */
  lemma LastCoveringEntryWins(es: seq<Option<Labels>>, week: int, i: int)
    requires 0 <= i < |es| && EntryCovers(es[i], week)
    requires forall j :: i < j < |es| ==> !EntryCovers(es[j], week)
    ensures week in PhasesOf(es) && PhasesOf(es)[week] == es[i].value.name
  {
    EntryLabels(es[..i], es[i], week);
    assert es[..i] + [es[i]] == es[..i + 1];
    LaterEntriesKeep(es, i + 1, week);
  }

  /** With a growth-phase text, the last entry that names a week gives its label. */
  lemma LastCoveringEntryLabels(profile: Profile, week: int, i: int)
    requires profile.growthPhases.Some? && profile.growthPhases.value != ""
    requires var es := Entries(profile.growthPhases.value);
      0 <= i < |es| && EntryCovers(es[i], week)
      && forall j :: i < j < |es| ==> !EntryCovers(es[j], week)
    ensures GrowthPhase(profile, week) == Entries(profile.growthPhases.value)[i].value.name
  {
    LastCoveringEntryWins(Entries(profile.growthPhases.value), week, i);
  }

  /** `get_growth_phase_for_week`, entry by entry and week by week as the handler does it. */
  method GrowthPhaseForWeek(profile: Profile, week: int) returns (phase: string)
    ensures phase == GrowthPhase(profile, week)
  {
    var text := profile.growthPhases.GetOr("");
    if text == [] {
      return DefaultPhase(week);
    }
    var phases := LabelEntries(Split(NormalizeBreaks(text), ','));
    phase := if week in phases then phases[week] else "Unknown";
  }

  /** The entry loop: each entry parsed and its weeks labelled, in order. */
  method LabelEntries(raws: seq<string>) returns (phases: map<int, string>)
    ensures phases == PhasesOf(ParseEntries(raws))
  {
    phases := map[];
    var i := 0;
    while i < |raws|
      invariant 0 <= i <= |raws|
      invariant phases == PhasesOf(ParseEntries(raws[..i]))
    {
      ghost var before := ParseEntries(raws[..i]);
      var e := ParseEntry(raws[i]);
      ghost var labels := LabelsOf(raws[i]);
      PhasesOfSnoc(before, labels);
      if e.Some? {
        phases := LabelWeeks(phases, Split(e.value.weeks, ','), e.value.name);
      }
      ParseEntriesStep(raws, i);
      i := i + 1;
    }
    assert raws[..i] == raws;
  }

  lemma ParseEntriesStep(raws: seq<string>, i: int)
    requires 0 <= i < |raws|
    ensures ParseEntries(raws[..i + 1]) == ParseEntries(raws[..i]) + [LabelsOf(raws[i])]
  {
    assert raws[..i + 1][..i] == raws[..i];
  }

  lemma PhasesOfSnoc(es: seq<Option<Labels>>, e: Option<Labels>)
    ensures e.None? ==> PhasesOf(es + [e]) == PhasesOf(es)
    ensures e.Some? ==> PhasesOf(es + [e]) == ApplyBounds(PhasesOf(es), e.value.bounds, e.value.name)
  {
    assert (es + [e])[..|es|] == es;
  }

  /** The week pieces of one entry, each range labelled week by week. */
  method LabelWeeks(phases: map<int, string>, pieces: seq<string>, name: string) returns (r: map<int, string>)
    ensures r == ApplyBounds(phases, PiecesBounds(pieces), name)
  {
    r := phases;
    var j := 0;
    while j < |pieces|
      invariant 0 <= j <= |pieces|
      invariant r == ApplyBounds(phases, PiecesBounds(pieces[..j]), name)
    {
      ghost var before := PiecesBounds(pieces[..j]);
      var bounds := WeekBounds(pieces[j]);
      ApplyBoundsSnoc(phases, before, bounds, name);
      if bounds.Some? {
        r := LabelRange(r, bounds.value.0, bounds.value.1, name);
      }
      assert r == ApplyBounds(phases, before + [bounds], name);
      PiecesBoundsStep(pieces, j);
      j := j + 1;
    }
    assert pieces[..j] == pieces;
  }

  /** `for w in range(lo, hi + 1): phases[w] = name`. */
  method LabelRange(phases: map<int, string>, lo: int, hi: int, name: string) returns (r: map<int, string>)
    ensures r == AssignRange(phases, lo, hi, name)
  {
    r := phases;
    var w := lo;
    while w <= hi
      invariant lo <= w <= (if hi < lo then lo else hi + 1)
      invariant r == AssignRange(phases, lo, w - 1, name)
      decreases hi - w
    {
      r := r[w := name];
      w := w + 1;
    }
  }

  lemma PiecesBoundsStep(pieces: seq<string>, j: int)
    requires 0 <= j < |pieces|
    ensures PiecesBounds(pieces[..j + 1]) == PiecesBounds(pieces[..j]) + [WeekBounds(pieces[j])]
  {
    assert pieces[..j + 1][..j] == pieces[..j];
  }

  lemma ApplyBoundsSnoc(phases: map<int, string>, bs: seq<Option<(int, int)>>, b: Option<(int, int)>, name: string)
    ensures b.None? ==> ApplyBounds(phases, bs + [b], name) == ApplyBounds(phases, bs, name)
    ensures b.Some? ==> ApplyBounds(phases, bs + [b], name) == AssignRange(ApplyBounds(phases, bs, name), b.value.0, b.value.1, name)
  {
    assert (bs + [b])[..|bs|] == bs;
  }

  /** Splitting at the first colon of `a + ":" + b`, where `a` has none, gives `a` and `b`. */
  lemma SplitOnceAt(a: string, c: char, b: string)
    requires c !in a
    ensures c in a + [c] + b && SplitOnce(a + [c] + b, c) == (a, b)
  {
    var s := a + [c] + b;
    assert s[|a|] == c;
    var i := FirstIndex(s, c);
    assert s[..|a|] == a && s[|a| + 1..] == b;
  }

  /** Text that is already stripped stays so with a colon and more stripped text around it. */
  lemma StripJoined(a: string, b: string)
    requires a != [] && b != [] && Strip(a) == a && Strip(b) == b
    ensures Strip(a + [':'] + b) == a + [':'] + b
  {
    var s := a + [':'] + b;
    assert s[0] == a[0] && s[|s| - 1] == b[|b| - 1];
    StripUnpadded(s);
  }

  /**
   * "name: weeks" and "weeks: name" give the same entry, for a name that does not
   * read as weeks and weeks that do.
   */
  lemma EntryFormatsAgree(name: string, weeks: string)
    requires name != [] && weeks != [] && Strip(name) == name && Strip(weeks) == weeks
    requires ':' !in name && ':' !in weeks
    requires !LooksLikeWeeks(name) && LooksLikeWeeks(weeks)
    ensures ParseEntry(name + ":" + weeks) == Some(Entry(name, weeks))
    ensures ParseEntry(weeks + ":" + name) == Some(Entry(name, weeks))
  {
    StripJoined(name, weeks);
    StripJoined(weeks, name);
    SplitOnceAt(name, ':', weeks);
    SplitOnceAt(weeks, ':', name);
  }

  /** Digits hold no dash. */
  lemma DigitsLackDash(s: string)
    requires AllDigits(s)
    ensures '-' !in s
  {
  }

  /** Two digit strings joined by a dash split back into the two. */
  lemma SplitDashed(sa: string, sb: string)
    requires AllDigits(sa) && AllDigits(sb)
    ensures Split(sa + "-" + sb, '-') == [sa, sb]
  {
    DigitsLackDash(sa);
    DigitsLackDash(sb);
    assert sa + "-" + sb == sa + ("-" + sb);
    SplitPrefix(sa, "-" + sb, '-');
    assert ("-" + sb)[1..] == sb;
    SplitWithout(sb, '-');
  }

  /** The text of a range `str(a) + "-" + str(b)` names weeks a to b. */
  lemma WeekBoundsOfRange(a: nat, b: nat)
    ensures WeekBounds(NatToString(a) + "-" + NatToString(b)) == Some((a, b))
  {
    var sa, sb := NatToString(a), NatToString(b);
    var t := sa + "-" + sb;
    assert t[0] == sa[0] && t[|t| - 1] == sb[|sb| - 1];
    StripUnpadded(t);
    assert t[|sa|] == '-';
    SplitDashed(sa, sb);
    ParseIntOfNat(a);
    ParseIntOfNat(b);
  }

  /** The text `str(w)` names the single week w. */
  lemma WeekBoundsOfWeek(w: nat)
    ensures WeekBounds(NatToString(w)) == Some((w, w))
  {
    var t := NatToString(w);
    StripUnpadded(t);
    DigitsLackDash(t);
    ParseIntOfNat(w);
  }

  // ---------------------------------------------------------------------
  // Adding a profile
  // ---------------------------------------------------------------------

  /**
   * The add-profile form as the form layer hands it over: numbers already converted
   * (None when absent or not a number), the weekly fields only read when the weekly
   * box is ticked, and the component pump ids and ratios as submitted text.
   */
  datatype ProfileForm = ProfileForm(
    name: Option<string>,
    description: Option<string>,
    phSetpoint: Option<real>,
    phBuffer: Option<real>,
    ecSetpoint: Option<int>,
    ecBuffer: Option<int>,
    tempMin: Option<real>,
    tempMax: Option<real>,
    useWeekly: bool,
    totalWeeks: Option<int>,
    growthPhases: Option<string>,
    componentPumps: seq<string>,
    componentRatios: seq<string>)

  datatype AddOutcome = NameMissing | AlreadyExists(id: string) | BadRatio | Added(id: string)

  /** `x or default` for a form number. */
  function OrReal(x: Option<real>, default: real): real
  {
    if x.Some? && x.value != 0.0 then x.value else default
  }

  function OrInt(x: Option<int>, default: int): real
  {
    if x.Some? && x.value != 0 then x.value as real else default as real
  }

  /** `s.replace(a, b)` for single characters, character by character. */
  lemma {:induction false} ReplaceCharByChar(s: string, a: char, b: char)
    ensures |Replace(s, [a], [b])| == |s|
    ensures forall i :: 0 <= i < |s| ==> Replace(s, [a], [b])[i] == if s[i] == a then b else s[i]
  {
    if |s| >= 1 {
      ReplaceCharByChar(s[1..], a, b);
      assert s[..1] == [s[0]];
    }
  }

  /** The id of a profile: the name lower-cased with blanks turned into underscores. */
  function ProfileId(name: string): string
  {
    Replace(Lower(name), " ", "_")
  }

  /** A profile id has the name's length, no blank and no upper-case letter. */
  lemma ProfileIdShape(name: string)
    ensures |ProfileId(name)| == |name|
    ensures ' ' !in ProfileId(name)
    ensures forall i :: 0 <= i < |name| ==> !('A' <= ProfileId(name)[i] <= 'Z')
    ensures forall i :: 0 <= i < |name| && name[i] != ' ' ==> ProfileId(name)[i] == LowerChar(name[i])
  {
    ReplaceCharByChar(Lower(name), ' ', '_');
  }

  /** The ratios a new profile starts with. */
  function DefaultRatios(): map<string, real>
  {
    Ratios(1.0, 1.0, 1.0, 0.5)
  }

  /** Weeks 1 to `n`, each with the given EC setpoint and ratios. */
  function WeekDefaults(n: int, ec: Option<real>, ratios: map<string, real>): map<int, WeekSchedule>
    decreases n
  {
    if n <= 0 then map[] else WeekDefaults(n - 1, ec, ratios)[n := WeekSchedule(ec, ratios)]
  }

  /** The default weekly schedule has exactly weeks 1 to `n`, all alike. */
  lemma {:induction false} WeekDefaultsCover(n: int, ec: Option<real>, ratios: map<string, real>)
    ensures forall w :: w in WeekDefaults(n, ec, ratios) <==> 1 <= w <= n
    ensures forall w :: w in WeekDefaults(n, ec, ratios) ==> WeekDefaults(n, ec, ratios)[w] == WeekSchedule(ec, ratios)
    decreases n
  {
    if n > 0 {
      WeekDefaultsCover(n - 1, ec, ratios);
    }
  }

  /** The pumps a profile form may name: enabled nutrient and pH pumps, in table order. */
  function ProfilePumps(rows: seq<Pump>): (r: seq<Pump>)
    ensures forall p :: p in r <==> p in rows && p.enabled && p.kind in {"nutrient", "ph_up", "ph_down"}
  {
    if rows == [] then []
    else
      (if rows[0].enabled && rows[0].kind in {"nutrient", "ph_up", "ph_down"} then [rows[0]] else [])
        + ProfilePumps(rows[1..])
  }

  /** `str(id)`. */
  function IdText(id: int): string
  {
    if id >= 0 then NatToString(id) else "-" + NatToString(-id)
  }

  /** The first pump whose id reads as `text`. */
  function PumpWithId(pumps: seq<Pump>, text: string): (r: Option<Pump>)
    ensures r.Some? ==> r.value in pumps && IdText(r.value.id) == text
    ensures r.None? ==> forall p :: p in pumps ==> IdText(p.id) != text
  {
    if pumps == [] then None
    else if IdText(pumps[0].id) == text then Some(pumps[0])
    else PumpWithId(pumps[1..], text)
  }

  /** A component typed in on the form. */
  function FormComponent(p: Pump, ratio: real): Component
  {
    Component(p.id, p.name, ratio, None, None, p.nutrientName, Some(p.kind), None, None)
  }

  /** Each ratio text as `float()` reads it. */
  function ParsedRatios(texts: seq<string>): (r: seq<Option<real>>)
    ensures |r| == |texts|
  {
    if texts == [] then [] else ParsedRatios(texts[..|texts| - 1]) + [ParseDecimal(texts[|texts| - 1])]
  }

  lemma {:induction false} ParsedRatioAt(texts: seq<string>, i: int)
    requires 0 <= i < |texts|
    ensures ParsedRatios(texts)[i] == ParseDecimal(texts[i])
  {
    if i < |texts| - 1 {
      ParsedRatioAt(texts[..|texts| - 1], i);
    }
  }

  /**
   * The components of the first `n` pump/ratio pairs, skipping pairs whose pump is
   * not found; None as soon as a ratio is not a number, which aborts the request.
   */
  function FormComponents(pumps: seq<Pump>, ids: seq<string>, ratios: seq<Option<real>>, n: nat): Option<seq<Component>>
    requires n <= |ids| && n <= |ratios|
  {
    if n == 0 then Some([])
    else
      match FormComponents(pumps, ids, ratios, n - 1)
      case None => None
      case Some(cs) =>
        match ratios[n - 1]
        case None => None
        case Some(x) =>
          match PumpWithId(pumps, ids[n - 1])
          case None => Some(cs)
          case Some(p) => Some(cs + [FormComponent(p, x)])
  }

  function Min(a: nat, b: nat): nat { if a <= b then a else b }

  /** A component built from an allowed pump named by pair `i`, with that pair's ratio. */
  predicate FromPair(c: Component, pumps: seq<Pump>, ids: seq<string>, ratios: seq<Option<real>>, i: int)
  {
    0 <= i < |ids| && i < |ratios| && ratios[i] == Some(c.ratio)
    && exists p :: p in pumps && IdText(p.id) == ids[i] && c == FormComponent(p, c.ratio)
  }

  /**
   * The form's components are all built from allowed pumps with their parsed ratios,
   * at most one per pair; and they are missing exactly when some ratio is not a number.
   */
  lemma {:induction false} FormComponentsSound(pumps: seq<Pump>, ids: seq<string>, ratios: seq<Option<real>>, n: nat)
    requires n <= |ids| && n <= |ratios|
    ensures FormComponents(pumps, ids, ratios, n).None? <==> exists i :: 0 <= i < n && ratios[i].None?
    ensures FormComponents(pumps, ids, ratios, n).Some? ==>
      (|FormComponents(pumps, ids, ratios, n).value| <= n
       && forall c :: c in FormComponents(pumps, ids, ratios, n).value ==>
            exists i :: 0 <= i < n && FromPair(c, pumps, ids, ratios, i))
  {
    if n > 0 {
      FormComponentsSound(pumps, ids, ratios, n - 1);
      var before := FormComponents(pumps, ids, ratios, n - 1);
      if ratios[n - 1].None? {
        assert 0 <= n - 1 < n && ratios[n - 1].None?;
      } else if exists i :: 0 <= i < n && ratios[i].None? {
        var i :| 0 <= i < n && ratios[i].None?;
        assert i < n - 1;
      }
      if before.Some? && ratios[n - 1].Some? {
        var found := PumpWithId(pumps, ids[n - 1]);
        if found.Some? {
          var c := FormComponent(found.value, ratios[n - 1].value);
          assert FromPair(c, pumps, ids, ratios, n - 1);
        }
      }
    }
  }

  /** The new profile: defaults for empty fields, a custom profile, and weeks 1 to N when asked for. */
  function AddedProfile(form: ProfileForm, components: seq<Component>): Profile
  {
    var weekly := form.useWeekly && form.totalWeeks.Some? && form.totalWeeks.value != 0;
    var ec := if form.ecSetpoint.Some? then Some(form.ecSetpoint.value as real) else None;
    Profile(
      form.name, form.description,
      Some(OrReal(form.phSetpoint, 6.0)), Some(OrReal(form.phBuffer, 0.2)),
      Some(OrInt(form.ecSetpoint, 1350)), Some(OrInt(form.ecBuffer, 150)),
      Some(OrReal(form.tempMin, 18.0)), Some(OrReal(form.tempMax, 28.0)),
      Some(true), Some(DefaultRatios()), Some(components),
      if weekly then Some(WeekDefaults(form.totalWeeks.value, ec, DefaultRatios())) else None,
      if weekly then form.totalWeeks else None,
      if weekly then Some(1) else None,
      if weekly && form.growthPhases.Some? && form.growthPhases.value != "" then form.growthPhases else None)
  }

  /** `add_profile` on the stored profiles: the outcome and the profiles to store. */
  function AddProfileSpec(ps: map<string, Profile>, rows: seq<Pump>, form: ProfileForm): (AddOutcome, map<string, Profile>)
  {
    if form.name.None? || form.name.value == "" then (NameMissing, ps)
    else
      var id := ProfileId(form.name.value);
      if id in ps then (AlreadyExists(id), ps)
      else
        var n := Min(|form.componentPumps|, |form.componentRatios|);
        match FormComponents(ProfilePumps(rows), form.componentPumps, ParsedRatios(form.componentRatios), n)
        case None => (BadRatio, ps)
        case Some(cs) => (Added(id), ps[id := AddedProfile(form, cs)])
  }

  /**
   * A profile is added only under a fresh id made from a non-empty name, as a custom
   * profile with the submitted settings or their defaults; no existing profile changes.
   */
  lemma AddProfileKeepsOthers(ps: map<string, Profile>, rows: seq<Pump>, form: ProfileForm)
    ensures var (outcome, next) := AddProfileSpec(ps, rows, form);
      && (form.name.None? || form.name == Some("") <==> outcome == NameMissing)
      && (outcome.AlreadyExists? ==> outcome.id in ps)
      && (!outcome.Added? ==> next == ps)
      && (outcome.Added? ==>
            && outcome.id == ProfileId(form.name.value) && outcome.id !in ps
            && next.Keys == ps.Keys + {outcome.id}
            && (forall k :: k in ps ==> next[k] == ps[k])
            && next[outcome.id].custom == Some(true)
            && next[outcome.id].name == form.name
            && next[outcome.id].phSetpoint == Some(if form.phSetpoint.Some? && form.phSetpoint.value != 0.0 then form.phSetpoint.value else 6.0)
            && next[outcome.id].ecSetpoint == Some(if form.ecSetpoint.Some? && form.ecSetpoint.value != 0 then form.ecSetpoint.value as real else 1350.0))
  {
  }

  /** With the weekly box ticked and N weeks, the profile starts in week 1 of a schedule with weeks 1 to N. */
  lemma AddedWeeklySchedule(form: ProfileForm, components: seq<Component>)
    requires form.useWeekly && form.totalWeeks.Some? && form.totalWeeks.value != 0
    ensures var p := AddedProfile(form, components);
      && p.weekly.Some? && (forall w :: w in p.weekly.value <==> 1 <= w <= form.totalWeeks.value)
      && p.currentWeek == Some(1) && p.totalWeeks == form.totalWeeks
      && forall w :: w in p.weekly.value ==>
           (p.weekly.value[w].ratios == DefaultRatios()
            && p.weekly.value[w].ecSetpoint == (if form.ecSetpoint.Some? then Some(form.ecSetpoint.value as real) else None))
  {
    var ec := if form.ecSetpoint.Some? then Some(form.ecSetpoint.value as real) else None;
    WeekDefaultsCover(form.totalWeeks.value, ec, DefaultRatios());
  }

  /** The profiles after a change is stored and the automatic configuration has run. */
  function Configured(ps: map<string, Profile>, rows: seq<Pump>): map<string, Profile>
  {
    Persisted(ps, NutrientPumps(rows))
  }

  /** `add_profile` (POST) against the settings store and the pumps table `rows`. */
  method AddProfile(store: Store, rows: seq<Pump>, form: ProfileForm) returns (outcome: AddOutcome)
    modifies store
    ensures outcome == AddProfileSpec(old(store.ProfileMap()), rows, form).0
    ensures store.values == old(store.values)
    ensures outcome.Added? ==>
      store.ProfileMap() == Configured(AddProfileSpec(old(store.ProfileMap()), rows, form).1, rows)
      && store.incompatibilities == Some(CheckIncompatibility(NutrientPumps(rows)))
    ensures !outcome.Added? ==> store.profiles == old(store.profiles) && store.incompatibilities == old(store.incompatibilities)
  {
    var ps := store.ProfileMap();
    if form.name.None? || form.name.value == "" {
      return NameMissing;
    }
    var id := ProfileId(form.name.value);
    if id in ps {
      return AlreadyExists(id);
    }
    var weekly: Option<map<int, WeekSchedule>> := None;
    if form.useWeekly && form.totalWeeks.Some? && form.totalWeeks.value != 0 {
      var ec := if form.ecSetpoint.Some? then Some(form.ecSetpoint.value as real) else None;
      var schedule := DefaultWeeks(form.totalWeeks.value, ec, DefaultRatios());
      weekly := Some(schedule);
    }
    var components := CollectComponents(ProfilePumps(rows), form.componentPumps, form.componentRatios);
    if components.None? {
      return BadRatio;
    }
    var profile := AddedProfile(form, components.value).(weekly := weekly);
    assert profile == AddedProfile(form, components.value);
    SaveAndConfigure(store, rows, ps[id := profile]);
    outcome := Added(id);
  }

  /** `Settings.set('plant_profiles', ps)` followed by `auto_configure_nutrient_components`. */
  method SaveAndConfigure(store: Store, rows: seq<Pump>, ps: map<string, Profile>)
    modifies store
    ensures store.ProfileMap() == Configured(ps, rows)
    ensures store.incompatibilities == Some(CheckIncompatibility(NutrientPumps(rows)))
    ensures store.values == old(store.values)
  {
    store.profiles := Some(ps);
    var _ := AutoConfigure(store, rows);
  }

  /** `for week in range(1, n + 1)`, one default week at a time. */
  method DefaultWeeks(n: int, ec: Option<real>, ratios: map<string, real>) returns (weeks: map<int, WeekSchedule>)
    ensures weeks == WeekDefaults(n, ec, ratios)
  {
    weeks := map[];
    var week := 1;
    while week <= n
      invariant 1 <= week <= (if n < 1 then 1 else n + 1)
      invariant weeks == WeekDefaults(week - 1, ec, ratios)
      decreases n - week
    {
      weeks := weeks[week := WeekSchedule(ec, ratios)];
      week := week + 1;
    }
  }

  /** The component loop: one pump/ratio pair after another, aborting on a ratio that is not a number. */
  method CollectComponents(pumps: seq<Pump>, ids: seq<string>, ratios: seq<string>) returns (r: Option<seq<Component>>)
    ensures r == FormComponents(pumps, ids, ParsedRatios(ratios), Min(|ids|, |ratios|))
  {
    ghost var parsed := ParsedRatios(ratios);
    var n := Min(|ids|, |ratios|);
    var cs: seq<Component> := [];
    var i := 0;
    while i < n
      invariant 0 <= i <= n
      invariant FormComponents(pumps, ids, parsed, i) == Some(cs)
    {
      var ratio := ParseDecimal(ratios[i]);
      ParsedRatioAt(ratios, i);
      if ratio.None? {
        StaysAborted(pumps, ids, parsed, i + 1, n);
        return None;
      }
      assert parsed[i] == ratio;
      var found := PumpWithId(pumps, ids[i]);
      FormComponentsStep(pumps, ids, parsed, i, cs);
      if found.Some? {
        cs := cs + [FormComponent(found.value, ratio.value)];
      }
      assert FormComponents(pumps, ids, parsed, i + 1) == Some(cs);
      i := i + 1;
    }
    r := Some(cs);
  }

  lemma FormComponentsStep(pumps: seq<Pump>, ids: seq<string>, ratios: seq<Option<real>>, i: nat, cs: seq<Component>)
    requires i < |ids| && i < |ratios| && ratios[i].Some?
    requires FormComponents(pumps, ids, ratios, i) == Some(cs)
    ensures var found := PumpWithId(pumps, ids[i]);
      FormComponents(pumps, ids, ratios, i + 1)
        == Some(if found.Some? then cs + [FormComponent(found.value, ratios[i].value)] else cs)
  {
  }

  /** Once a ratio fails, the request stays aborted whatever follows. */
  lemma {:induction false} StaysAborted(pumps: seq<Pump>, ids: seq<string>, ratios: seq<Option<real>>, m: nat, n: nat)
    requires m <= n <= |ids| && n <= |ratios|
    requires FormComponents(pumps, ids, ratios, m).None?
    ensures FormComponents(pumps, ids, ratios, n).None?
    decreases n - m
  {
    if m < n {
      StaysAborted(pumps, ids, ratios, m + 1, n);
    }
  }

  // ---------------------------------------------------------------------
  // Deleting, duplicating and activating a profile
  // ---------------------------------------------------------------------

  /** `Settings.get('active_plant_profile', 'general')`, None when the stored value is not text. */
  function ActiveSetting(values: map<string, Value>): Option<string>
  {
    TextSetting(values, ACTIVE_PROFILE_KEY, "general")
  }

  /** `Settings.get('active_plant_profile')` without a default: None when absent or not text. */
  function StoredActive(values: map<string, Value>): Option<string>
  {
    if ACTIVE_PROFILE_KEY in values && values[ACTIVE_PROFILE_KEY].Text? then Some(values[ACTIVE_PROFILE_KEY].s) else None
  }

  datatype DeleteOutcome = NotFound | IsActive | NotCustom | Deleted

  /** `delete_profile`: the outcome and the profiles to store. */
  function DeleteProfileSpec(ps: map<string, Profile>, values: map<string, Value>, id: string): (DeleteOutcome, map<string, Profile>)
  {
    if id !in ps then (NotFound, ps)
    else if ActiveSetting(values) == Some(id) then (IsActive, ps)
    else if ps[id].custom != Some(true) then (NotCustom, ps)
    else (Deleted, ps - {id})
  }

  /**
   * Only an existing, inactive, custom profile is deleted, and nothing else goes with
   * it; the active profile and the built-in ones are refused.
   */
  lemma DeleteOnlyInactiveCustom(ps: map<string, Profile>, values: map<string, Value>, id: string)
    ensures var (outcome, next) := DeleteProfileSpec(ps, values, id);
      && (outcome == Deleted <==> id in ps && ActiveSetting(values) != Some(id) && ps[id].custom == Some(true))
      && (outcome == Deleted ==> next.Keys == ps.Keys - {id} && forall k :: k in next ==> next[k] == ps[k])
      && (outcome != Deleted ==> next == ps)
      && (ActiveSetting(values) == Some(id) ==> outcome != Deleted)
  {
  }

  /** The built-in profiles cannot be deleted. */
  lemma BuiltInProfilesKept(values: map<string, Value>, id: string)
    requires id in BUILT_IN_IDS
    ensures DeleteProfileSpec(BuiltInProfiles(), values, id).1 == BuiltInProfiles()
  {
  }

  /** `delete_profile` against the settings store. */
  method DeleteProfile(store: Store, id: string) returns (outcome: DeleteOutcome)
    modifies store
    ensures var (o, next) := DeleteProfileSpec(old(store.ProfileMap()), old(store.values), id);
      outcome == o && (o == Deleted ==> store.profiles == Some(next)) && (o != Deleted ==> store.profiles == old(store.profiles))
    ensures store.values == old(store.values) && store.incompatibilities == old(store.incompatibilities)
  {
    var ps := store.ProfileMap();
    if id !in ps {
      return NotFound;
    }
    if ActiveSetting(store.values) == Some(id) {
      return IsActive;
    }
    if ps[id].custom != Some(true) {
      return NotCustom;
    }
    store.profiles := Some(ps - {id});
    outcome := Deleted;
  }

  /** The id of a copy: the source id, "_copy_" and the first six hex digits of a random uuid. */
  function CopyId(id: string, suffix: string): string
  {
    id + "_copy_" + suffix
  }

  /** The copy: the same settings, the name marked as a copy, and custom. */
  function Copied(id: string, source: Profile): Profile
  {
    source.(name := Some(source.name.GetOr(id) + " (Copy)"), custom := Some(true))
  }

  /** `duplicate_profile` with the uuid digits as `suffix`: the profiles to store, None when the source is missing. */
  function DuplicateProfileSpec(ps: map<string, Profile>, id: string, suffix: string): Option<map<string, Profile>>
  {
    if id !in ps then None else Some(ps[CopyId(id, suffix) := Copied(id, ps[id])])
  }

  /**
   * A copy keeps every setting of its source but the name and the custom flag, leaves
   * the source as it was, and can itself be deleted whenever it is not active.
   */
  lemma DuplicateKeepsSource(ps: map<string, Profile>, values: map<string, Value>, id: string, suffix: string)
    requires id in ps
    ensures var next := DuplicateProfileSpec(ps, id, suffix).value;
      var copy := CopyId(id, suffix);
      && next[copy].name == Some(ps[id].name.GetOr(id) + " (Copy)")
      && next[copy].custom == Some(true)
      && next[copy].(name := ps[id].name, custom := ps[id].custom) == ps[id]
      && next[id] == ps[id]
      && (forall k :: k in ps && k != copy ==> next[k] == ps[k])
      && (ActiveSetting(values) != Some(copy) ==> DeleteProfileSpec(next, values, copy).0 == Deleted)
  {
    var copy := CopyId(id, suffix);
    assert |copy| > |id|;
  }

  /** `duplicate_profile` against the settings store. */
  method DuplicateProfile(store: Store, id: string, suffix: string) returns (found: bool)
    modifies store
    ensures found == (id in old(store.ProfileMap()))
    ensures found ==> store.profiles == DuplicateProfileSpec(old(store.ProfileMap()), id, suffix)
    ensures !found ==> store.profiles == old(store.profiles)
    ensures store.values == old(store.values) && store.incompatibilities == old(store.incompatibilities)
  {
    var ps := store.ProfileMap();
    if id !in ps {
      return false;
    }
    var copy := Copied(id, ps[id]);
    store.profiles := Some(ps[CopyId(id, suffix) := copy]);
    found := true;
  }

  /** The EC setpoint a profile's week schedule gives a week, if it has one. */
  function WeekEc(p: Profile, week: int): Option<real>
  {
    if p.weekly.Some? && week in p.weekly.value then p.weekly.value[week].ecSetpoint else None
  }

  /** The week whose schedule activation consults: the current week, when set and non-zero and there are schedules. */
  function ActivationWeek(p: Profile): Option<int>
  {
    if p.weekly.Some? && p.currentWeek.Some? && p.currentWeek.value != 0 then p.currentWeek else None
  }

  /** The settings after `activate_profile`: the active id, the profile's pH and EC targets, and the current week's EC. */
  function ActivatedValues(values: map<string, Value>, id: string, p: Profile): map<string, Value>
  {
    var v := values[ACTIVE_PROFILE_KEY := Text(id)]
      ["ph_setpoint" := Num(p.phSetpoint.GetOr(6.0))]
      ["ph_buffer" := Num(p.phBuffer.GetOr(0.2))]
      ["ec_setpoint" := Num(p.ecSetpoint.GetOr(1350.0))]
      ["ec_buffer" := Num(p.ecBuffer.GetOr(150.0))];
    var week := ActivationWeek(p);
    if week.Some? && WeekEc(p, week.value).Some? then v["ec_setpoint" := Num(WeekEc(p, week.value).value)] else v
  }

  /**
   * Activation names the profile active, copies its pH and EC targets (or the defaults),
   * lets the current week's schedule decide the EC setpoint when it has one, and
   * changes no other setting.
   */
  lemma ActivationSetsTargets(values: map<string, Value>, id: string, p: Profile)
    ensures var v := ActivatedValues(values, id, p);
      && v[ACTIVE_PROFILE_KEY] == Text(id)
      && v["ph_setpoint"] == Num(p.phSetpoint.GetOr(6.0))
      && v["ph_buffer"] == Num(p.phBuffer.GetOr(0.2))
      && v["ec_buffer"] == Num(p.ecBuffer.GetOr(150.0))
      && (ActivationWeek(p).Some? && WeekEc(p, ActivationWeek(p).value).Some? ==>
            v["ec_setpoint"] == Num(WeekEc(p, ActivationWeek(p).value).value))
      && (ActivationWeek(p).None? || WeekEc(p, ActivationWeek(p).value).None? ==>
            v["ec_setpoint"] == Num(p.ecSetpoint.GetOr(1350.0)))
      && v.Keys == values.Keys + {ACTIVE_PROFILE_KEY, "ph_setpoint", "ph_buffer", "ec_setpoint", "ec_buffer"}
      && forall k :: k in values && k !in {ACTIVE_PROFILE_KEY, "ph_setpoint", "ph_buffer", "ec_setpoint", "ec_buffer"} ==> v[k] == values[k]
  {
  }

  /** Once activated, a profile is refused by the delete handler. */
  lemma ActivatedProfileNotDeletable(ps: map<string, Profile>, values: map<string, Value>, id: string)
    requires id in ps
    ensures DeleteProfileSpec(ps, ActivatedValues(values, id, ps[id]), id).0 == IsActive
  {
    ActivationSetsTargets(values, id, ps[id]);
  }

  /** `activate_profile` against the settings store and the pumps table `rows`. */
  method ActivateProfile(store: Store, rows: seq<Pump>, id: string) returns (found: bool)
    modifies store
    ensures found == (id in old(store.ProfileMap()))
    ensures found ==>
      store.values == ActivatedValues(old(store.values), id, old(store.ProfileMap())[id])
      && store.ProfileMap() == Configured(old(store.ProfileMap()), rows)
      && store.incompatibilities == Some(CheckIncompatibility(NutrientPumps(rows)))
    ensures !found ==>
      store.values == old(store.values) && store.profiles == old(store.profiles)
      && store.incompatibilities == old(store.incompatibilities)
  {
    var ps := store.ProfileMap();
    if id !in ps {
      return false;
    }
    var p := ps[id];
    store.Set(ACTIVE_PROFILE_KEY, Text(id));
    store.Set("ph_setpoint", Num(p.phSetpoint.GetOr(6.0)));
    store.Set("ph_buffer", Num(p.phBuffer.GetOr(0.2)));
    store.Set("ec_setpoint", Num(p.ecSetpoint.GetOr(1350.0)));
    store.Set("ec_buffer", Num(p.ecBuffer.GetOr(150.0)));
    var week := ActivationWeek(p);
    if week.Some? {
      var ec := WeekEc(p, week.value);
      if ec.Some? {
        store.Set("ec_setpoint", Num(ec.value));
      }
    }
    assert store.ProfileMap() == ps;
    assert store.values == ActivatedValues(old(store.values), id, p);
    var _ := AutoConfigure(store, rows);
    found := true;
  }

  // ---------------------------------------------------------------------
  // The grow cycle
  // ---------------------------------------------------------------------

  /** The profile with no keys at all (`{}`), which the handlers treat as missing. */
  function EmptyProfile(): Profile
  {
    Profile(None, None, None, None, None, None, None, None, None, None, None, None, None, None, None)
  }

  /** The first profile, in the stored order `order`, that has week schedules. */
  function FirstScheduled(ps: map<string, Profile>, order: seq<string>): (r: Option<string>)
    ensures r.Some? ==> r.value in ps && ps[r.value].weekly.Some? && r.value in order
    ensures r.None? ==> forall k :: k in order && k in ps ==> ps[k].weekly.None?
  {
    if order == [] then None
    else if order[0] in ps && ps[order[0]].weekly.Some? then Some(order[0])
    else FirstScheduled(ps, order[1..])
  }

  /**
   * The profile the grow-cycle page works on: the active one when it has week
   * schedules; when the active profile is missing, the first profile with schedules;
   * None when neither applies (an active profile without schedules has no fallback).
   */
  function CycleProfile(ps: map<string, Profile>, values: map<string, Value>, order: seq<string>): (r: Option<string>)
    ensures r.Some? ==> r.value in ps && ps[r.value].weekly.Some?
  {
    var id := ActiveSetting(values);
    var active := if id.Some? && id.value in ps then ps[id.value] else EmptyProfile();
    if active != EmptyProfile() && active.weekly.Some? then id
    else if active == EmptyProfile() then FirstScheduled(ps, order)
    else None
  }

  /** A POST `action`, or `View` for a GET of the page. */
  datatype CycleAction = SetWeek(week: Option<int>) | NextWeek | ResetCycle | OtherAction(name: Option<string>) | View

  /** `Shown(reconfigured)`: the page was rendered, after running the auto-configuration when `reconfigured`. */
  datatype CycleOutcome = NoSchedule | InvalidWeek(week: Option<int>) | FinalWeek | Moved(from: int, to: int) | UnknownAction
                        | Shown(reconfigured: bool)

  /**
   * Whether a page view finds the profile's components out of date. No code records
   * `weekly_schedule_applied` on a component, so every listed component differs from
   * the current week and the test is whether the list is non-empty.
   */
  predicate ComponentsStale(p: Profile)
  {
    p.components.GetOr([]) != []
  }

  /** Whether the request ends by running the auto-configuration: after every move, and on a view of stale components. */
  predicate RunsAutoConfig(o: CycleOutcome)
  {
    o.Moved? || (o.Shown? && o.reconfigured)
  }

  /** Profile `id` moved to `week`, and the EC setpoint taken from that week when `id` is the stored active profile. */
  function MovedTo(ps: map<string, Profile>, values: map<string, Value>, id: string, week: int): (map<string, Profile>, map<string, Value>)
    requires id in ps
  {
    var p := ps[id];
    var v := if StoredActive(values) == Some(id) && WeekEc(p, week).Some? then values["ec_setpoint" := Num(WeekEc(p, week).value)] else values;
    (ps[id := p.(currentWeek := Some(week))], v)
  }

  /** `grow_cycle` (POST): the outcome, the profiles and the settings to store. */
  function GrowCycleSpec(ps: map<string, Profile>, values: map<string, Value>, order: seq<string>, action: CycleAction)
    : (CycleOutcome, map<string, Profile>, map<string, Value>)
  {
    var target := CycleProfile(ps, values, order);
    if target.None? then (NoSchedule, ps, values)
    else
      var id := target.value;
      var p := ps[id];
      var total := p.totalWeeks.GetOr(12);
      var current := p.currentWeek.GetOr(1);
      match action
      case SetWeek(w) =>
        if w.Some? && w.value != 0 && 1 <= w.value <= total then
          var (ps', v') := MovedTo(ps, values, id, w.value); (Moved(current, w.value), ps', v')
        else (InvalidWeek(w), ps, values)
      case NextWeek =>
        if current < total then
          var (ps', v') := MovedTo(ps, values, id, current + 1); (Moved(current, current + 1), ps', v')
        else (FinalWeek, ps, values)
      case ResetCycle =>
        var (ps', v') := MovedTo(ps, values, id, 1); (Moved(current, 1), ps', v')
      case OtherAction(_) => (UnknownAction, ps, values)
      case View => (Shown(ComponentsStale(p)), ps, values)
  }

  /** The stored profiles after `grow_cycle`: the spec's profiles, auto-configured when the request runs it. */
  function CycleStored(ps: map<string, Profile>, values: map<string, Value>, rows: seq<Pump>, order: seq<string>, action: CycleAction)
    : map<string, Profile>
  {
    var (o, ps', _) := GrowCycleSpec(ps, values, order, action);
    if RunsAutoConfig(o) then Configured(ps', rows) else ps'
  }

  /** Configuring what the configuration persisted changes nothing. */
  lemma ConfiguredSettles(ps: map<string, Profile>, rows: seq<Pump>)
    ensures Configured(Configured(ps, rows), rows) == Configured(ps, rows)
  {
    RerunNotUpdated(ps, NutrientPumps(rows));
  }

  /**
   * A view reconfigures exactly when the page has a profile whose component list is
   * non-empty, and never moves a week or changes a setting; a view of what a move or
   * an earlier view left behind leaves the stored profiles as they are, so a second
   * view changes nothing.
   */
  lemma ViewSettles(ps: map<string, Profile>, values: map<string, Value>, rows: seq<Pump>, order: seq<string>, action: CycleAction)
    ensures var (o, ps', v') := GrowCycleSpec(ps, values, order, View);
      && ps' == ps && v' == values
      && (o.NoSchedule? || o.Shown?)
      && (RunsAutoConfig(o) <==> CycleProfile(ps, values, order).Some? && ComponentsStale(ps[CycleProfile(ps, values, order).value]))
    ensures var v1 := GrowCycleSpec(ps, values, order, action).2;
      RunsAutoConfig(GrowCycleSpec(ps, values, order, action).0) ==>
        var q := CycleStored(ps, values, rows, order, action);
        CycleStored(q, v1, rows, order, View) == q
  {
    var (o, ps', v1) := GrowCycleSpec(ps, values, order, action);
    if RunsAutoConfig(o) {
      var q := Configured(ps', rows);
      ConfiguredSettles(ps', rows);
      assert CycleStored(q, v1, rows, order, View) == q;
    }
  }

  /**
   * A move changes only the chosen profile's current week, never past its last week
   * when set or advanced, and the EC setpoint only to that week's scheduled value and
   * only when the chosen profile is the stored active one; everything else stays.
   */
  lemma GrowCycleMoves(ps: map<string, Profile>, values: map<string, Value>, order: seq<string>, action: CycleAction)
    ensures var (outcome, ps', v') := GrowCycleSpec(ps, values, order, action);
      && (outcome.NoSchedule? <==> CycleProfile(ps, values, order).None?)
      && (!outcome.Moved? ==> ps' == ps && v' == values)
      && (outcome.Moved? ==>
            var id := CycleProfile(ps, values, order).value;
            var total := ps[id].totalWeeks.GetOr(12);
            && ps'.Keys == ps.Keys
            && ps'[id] == ps[id].(currentWeek := Some(outcome.to))
            && (forall k :: k in ps && k != id ==> ps'[k] == ps[k])
            && (action.SetWeek? ==> 1 <= outcome.to <= total)
            && (action.NextWeek? ==> outcome.to == outcome.from + 1 <= total)
            && (action.ResetCycle? ==> outcome.to == 1)
            && (StoredActive(values) == Some(id) && WeekEc(ps[id], outcome.to).Some? ==>
                  v' == values["ec_setpoint" := Num(WeekEc(ps[id], outcome.to).value)])
            && (StoredActive(values) != Some(id) || WeekEc(ps[id], outcome.to).None? ==> v' == values))
  {
  }

  /** When the active profile is missing, the fallback profile is moved but the settings never change. */
  lemma FallbackLeavesSettings(ps: map<string, Profile>, values: map<string, Value>, order: seq<string>, action: CycleAction)
    requires ActiveSetting(values).None? || ActiveSetting(values).value !in ps || ps[ActiveSetting(values).value] == EmptyProfile()
    ensures GrowCycleSpec(ps, values, order, action).2 == values
  {
    var target := CycleProfile(ps, values, order);
    if target.Some? {
      var id := target.value;
      assert ps[id] != EmptyProfile();
    }
  }

  /** An active profile without week schedules disables the page, whatever other profiles hold. */
  lemma ActiveWithoutScheduleHasNoCycle(ps: map<string, Profile>, values: map<string, Value>, order: seq<string>)
    requires ActiveSetting(values).Some? && ActiveSetting(values).value in ps
    requires ps[ActiveSetting(values).value] != EmptyProfile() && ps[ActiveSetting(values).value].weekly.None?
    ensures forall a :: GrowCycleSpec(ps, values, order, a).0 == NoSchedule
  {
  }

  /** Resetting twice leaves the same profiles and settings as resetting once. */
  lemma ResetIdempotent(ps: map<string, Profile>, values: map<string, Value>, order: seq<string>)
    ensures var (_, ps1, v1) := GrowCycleSpec(ps, values, order, ResetCycle);
      var (_, ps2, v2) := GrowCycleSpec(ps1, v1, order, ResetCycle);
      ps2 == ps1 && v2 == v1
  {
    var target := CycleProfile(ps, values, order);
    if target.Some? {
      var id := target.value;
      var (_, ps1, v1) := GrowCycleSpec(ps, values, order, ResetCycle);
      assert ps1 == ps[id := ps[id].(currentWeek := Some(1))];
      assert ActiveSetting(v1) == ActiveSetting(values) && StoredActive(v1) == StoredActive(values);
      SameCycleProfile(ps, values, order, id, v1);
      assert CycleProfile(ps1, v1, order) == Some(id);
      assert ps1[id := ps1[id].(currentWeek := Some(1))] == ps1;
    }
  }

  /** Moving the chosen profile's week does not change which profile the page works on. */
  lemma SameCycleProfile(ps: map<string, Profile>, values: map<string, Value>, order: seq<string>, id: string, v1: map<string, Value>)
    requires CycleProfile(ps, values, order) == Some(id)
    requires ActiveSetting(v1) == ActiveSetting(values)
    ensures forall w :: CycleProfile(ps[id := ps[id].(currentWeek := Some(w))], v1, order) == Some(id)
  {
    forall w
      ensures CycleProfile(ps[id := ps[id].(currentWeek := Some(w))], v1, order) == Some(id)
    {
      var ps1 := ps[id := ps[id].(currentWeek := Some(w))];
      var a := ActiveSetting(values);
      var active := if a.Some? && a.value in ps then ps[a.value] else EmptyProfile();
      if active == EmptyProfile() {
        FirstScheduledMoved(ps, order, id, w);
      }
    }
  }

  lemma {:induction false} FirstScheduledMoved(ps: map<string, Profile>, order: seq<string>, id: string, w: int)
    requires FirstScheduled(ps, order) == Some(id)
    ensures FirstScheduled(ps[id := ps[id].(currentWeek := Some(w))], order) == Some(id)
  {
    if order[0] != id {
      FirstScheduledMoved(ps, order[1..], id, w);
    }
  }

  /** `grow_cycle` (POST) against the settings store, the pumps table `rows` and the stored profile order. */
  method GrowCycle(store: Store, rows: seq<Pump>, order: seq<string>, action: CycleAction) returns (outcome: CycleOutcome)
    modifies store
    ensures var (o, ps', v') := GrowCycleSpec(old(store.ProfileMap()), old(store.values), order, action);
      && outcome == o
      && store.values == v'
      && (RunsAutoConfig(o) ==>
            store.ProfileMap() == Configured(ps', rows)
            && store.incompatibilities == Some(CheckIncompatibility(NutrientPumps(rows))))
      && (!RunsAutoConfig(o) ==> store.profiles == old(store.profiles) && store.incompatibilities == old(store.incompatibilities))
  {
    var ps := store.ProfileMap();
    var target := CycleProfile(ps, store.values, order);
    if target.None? {
      return NoSchedule;
    }
    var id := target.value;
    var p := ps[id];
    var total := p.totalWeeks.GetOr(12);
    var current := p.currentWeek.GetOr(1);
    var week: int;
    match action {
      case SetWeek(w) =>
        if w.Some? && w.value != 0 && 1 <= w.value <= total {
          week := w.value;
        } else {
          return InvalidWeek(w);
        }
      case NextWeek =>
        if current < total {
          week := current + 1;
        } else {
          return FinalWeek;
        }
      case ResetCycle =>
        week := 1;
      case OtherAction(_) =>
        return UnknownAction;
      case View =>
        if ComponentsStale(p) {
          var _ := AutoConfigure(store, rows);
          return Shown(true);
        }
        return Shown(false);
    }
    assert GrowCycleSpec(ps, old(store.values), order, action)
      == (Moved(current, week), MovedTo(ps, old(store.values), id, week).0, MovedTo(ps, old(store.values), id, week).1);
    MoveWeek(store, rows, id, week);
    outcome := Moved(current, week);
  }

  /** Store profile `id` at `week`, follow that week's EC when it is the active profile, and reconfigure. */
  method MoveWeek(store: Store, rows: seq<Pump>, id: string, week: int)
    requires id in store.ProfileMap()
    modifies store
    ensures var (ps', v') := MovedTo(old(store.ProfileMap()), old(store.values), id, week);
      && store.values == v'
      && store.ProfileMap() == Configured(ps', rows)
      && store.incompatibilities == Some(CheckIncompatibility(NutrientPumps(rows)))
  {
    var ps := store.ProfileMap();
    var p := ps[id];
    if StoredActive(store.values) == Some(id) {
      var ec := WeekEc(p, week);
      if ec.Some? {
        store.Set("ec_setpoint", Num(ec.value));
      }
    }
    SaveAndConfigure(store, rows, ps[id := p.(currentWeek := Some(week))]);
  }
}
