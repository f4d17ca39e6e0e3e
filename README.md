# nutetra controller — a Dafny model

nutetra is a Flask application that runs a hydroponics controller on a
Raspberry Pi. It reads pH, EC and temperature probes over I2C, drives
peristaltic dosing pumps through GPIO pins, keeps plant profiles and nutrient
recipes in a settings table, and sends out-of-range alerts by e-mail and SMS.
This project models the decision logic of that controller and proves what it
guarantees. One Dafny module stands for each source file of the core:

- `Common` (common.dfy): the Python string and number operations the controller
  relies on, written out on ASCII text. These are `lower`/`upper`, `in`, `split`,
  `strip`, `replace`, `int()`, a decimal `float()`, `round(x, 2)`, `:.2f`
  formatting and `encode`/`decode`. Round trips between them are proved.
- `SettingsStore` (settings_store.dfy): the `settings` key-value table as the
  class `Store`, the built-in plant profiles and `Settings.initialize_defaults`.
- `PumpModel` (pump_model.dfy): the `pumps` table as the class `PumpTable`, the
  dosing-time arithmetic, the enabled/type filters and the seeding of default pumps.
- `AutoConfig` (auto_config.dfy): `auto_configure_nutrient_components`. It
  classifies nutrient pumps, builds each profile's component list in dosing
  order, reports calcium/phosphate incompatibilities and computes per-litre and
  per-gallon doses.
- `DosingManager` (dosing_manager.dfy): night mode, pump activation with its
  gates and per-type cooldown, dose amounts and the pH and EC regulation rules.
  The module-global `last_dosing`, the pin levels and the ordered record of
  effects are fields of the class `Doser`.
- `SensorManager` (sensor_manager.dfy): the EZO sensor client as the class
  `SensorClient`. It covers the command framing on the I2C bus, reads with
  temperature compensation, the last-reading cache and calibration.
- `Garden` (garden.dfy): growth-phase labels and the plant-profile handlers.
  These are add, delete, duplicate, activate and the grow cycle's current week.
- `SensorData` (sensor_data.dfy): the merged pH/EC/temperature timeline:
  latest values, history and time ranges.
- `PumpApi` (pump_api.dfy): the JSON pump endpoints. These are create, update,
  delete, manual-dose duration, the pump-type migration and nutrient-type
  validation.
- `DosingPages` (dosing_pages.dfy): the dosing pages. They cover the pin checks
  for pumps, calibration, the pump test, the settings form with its setpoint
  override and the profile handlers.
- `Recipes` (recipes.dfy): the recipe and component tables as the class
  `RecipeBook`, and the active-recipe setting.
- `SensorPages` (sensor_pages.dfy): the status of each reading, the range check
  that sends alerts, and the calibration form checks.
- `Notifications` (notifications.dfy): the alert switches, the level filter and
  the e-mail and SMS channels.
- `Network` (network.dfy): the Wi-Fi signal quality scale, the sorted and
  deduplicated scan list, the netmask prefix length and the hostname check.
- `Migrations` (migrations.dfy): the two scripts that type nutrient products
  from their names.

Handlers are modelled without HTTP. Each one returns an outcome value where the
source flashes a message, redirects or answers JSON. Tables that handlers update
in place are classes with `modifies` clauses. Each class method is proved equal
to a specification function, and the lemmas beside that function state what the
source promises. Where the source leaves an outcome to the outside world, the
model takes that outcome as a parameter. Such outcomes are the clock, a call
that may raise, what the mail server answers and the id the database assigns.

## Model

| member | source | states |
|---|---|---|
| SettingsStore.NumSetting | app/models/settings.py:15-25 | a missing key yields the default; a stored number is returned unchanged |
| SettingsStore.TextSetting | app/models/settings.py:15-25 | a missing key yields the default |
| SettingsStore.RoleKey | app/models/settings.py:73-78 | each nutrient role is stored under one of the four keys grow, bloom, micro, calmag |
| SettingsStore.BuiltInProfiles | app/models/settings.py:61-152 | exactly the five built-in ids, each not custom and with an empty component list |
| SettingsStore.FillMissing | app/models/settings.py:205-209 | present keys keep their values, every default key ends up present, and no other key appears |
| SettingsStore.FillMissingFirstDefault | app/models/settings.py:205-209 | a key absent beforehand receives the first default listed for it |
| SettingsStore.Store.Set | app/models/settings.py:28-42 | the key is written and every other key, the profiles and the incompatibilities are unchanged |
| SettingsStore.Store.InitializeDefaults | app/models/settings.py:155-209 | profiles are seeded only when missing or empty; the scalar settings become `InitializedValues` of the old ones |
| SettingsStore.Store.FillDefaults | app/models/settings.py:205-209 | the loop writes exactly `FillMissing` of the old values and touches nothing else |
| SettingsStore.DefaultKeysDistinct | app/models/settings.py:163-203 | no default key is listed twice |
| SettingsStore.InitializeDefaultsSettles | app/models/settings.py:155-209 | afterwards every default key is present, present keys keep their value (the active profile aside), missing keys get their default, and the active profile is a built-in id, kept when it already was one |
| SettingsStore.ActiveCustomProfileIsReset | app/models/settings.py:158-161 | an active profile that is a stored custom profile is still reset to 'general' |
| PumpModel.NewPump | app/models/pump.py:63-75 | a new row is enabled and carries the given name, type, pin and flow rate |
| PumpModel.DosingTimeNoFlow | app/models/pump.py:38-41 | a flow rate of zero or less gives 0 ms |
| PumpModel.DosingTimeBounds | app/models/pump.py:42 | for a positive flow rate the result is the exact running time `amount/flow*1000` truncated toward zero |
| PumpModel.DosingTimeMonotone | app/models/pump.py:42 | at a fixed positive flow rate more liquid never takes less time |
| PumpModel.DosingTimeExample | app/models/pump.py:38-42 | 2 ml at 1 ml/s is 2000 ms, zero flow is 0 ms, and 1 ml at 3 ml/s truncates to 333 ms |
| PumpModel.ByType | app/models/pump.py:45-47 | a pump is returned iff it is in the table, enabled and of that type |
| PumpModel.ByTypeAbsent | app/models/pump.py:45-47 | with no row of the type the result is empty |
| PumpModel.Enabled | app/models/pump.py:50-52 | a pump is returned iff it is in the table and enabled |
| PumpModel.ByTypeKeepsOrder | app/models/pump.py:45-47 | the pumps of a type come in table order: filtering two runs of rows is filtering each and joining the results |
| PumpModel.EnabledKeepsOrder | app/models/pump.py:50-52 | the enabled pumps come in table order: filtering two runs of rows is filtering each and joining the results |
| PumpModel.Find | app/utils/dosing_manager.py:119-123 | the result is a row with that id, and there is none exactly when no row has the id |
| PumpModel.NextId | app/models/pump.py:62-79 | a new row's id exceeds every existing id and is at least 1 |
| PumpModel.InsertAll | app/models/pump.py:62-79 | inserting keeps the old rows as a prefix, adds one row per pump and keeps ids unique |
| PumpModel.StagedPhPumps | app/models/pump.py:57-68 | the pH Up default is staged iff no ph_up row exists, likewise pH Down, and at most two rows |
| PumpModel.DefaultsAsWrittenOnEmptyTable | app/models/pump.py:57-83 | as written, an empty table receives only the two pH pumps and the method does not commit |
| PumpModel.DefaultsAsWrittenNeverCommits | app/models/pump.py:70-83 | as written, the method itself never commits |
| PumpModel.PumpTable.Insert | app/models/pump.py:62-79 | the row is appended with the next free id, which no old row has, and ids stay unique |
| PumpModel.PumpTable.InitializeDefaults | app/models/pump.py:55-83 | each missing pH pump is added, the three nutrient pumps are added when the table was empty, and it commits iff something was added |
| PumpModel.DefaultsOnEmptyTable | app/models/pump.py:57-83 | an empty table receives all five default pumps |
| PumpModel.DefaultsIdempotent | app/models/pump.py:57-71 | a table that has both pH pumps receives nothing |
| SettingsStore.Store.constructor | app/models/settings.py:4-12 | the settings table starts with no values, no profiles and no incompatibilities |
| PumpModel.PumpTable.constructor | app/models/pump.py:3-20 | the pumps table starts empty with distinct ids |
| DosingManager.ClockOf | app/utils/dosing_manager.py:95-100 | a time of day is a point within one day, ordered as Python orders times |
| DosingManager.ParseClock | app/utils/dosing_manager.py:94-100 | a time text that parses gives a point within the day; malformed fields raise |
| DosingManager.ParseClockTwoFields | app/utils/dosing_manager.py:94-100 | two integer fields read as hour and minute give that time |
| DosingManager.ParseClockHourMinute | app/utils/dosing_manager.py:90-100 | `H:M` written in decimal reads back as that time (round trip) |
| DosingManager.NightModeDisabled | app/utils/dosing_manager.py:85-87 | night mode is never active while its switch is off |
| DosingManager.NightModeWraps | app/utils/dosing_manager.py:106-107 | a window that crosses midnight is active exactly outside the open interval from its end to its start |
| DosingManager.NightModeSingleInstant | app/utils/dosing_manager.py:108-109 | a window whose start equals its end is active at that instant only |
| DosingManager.DefaultNightWindow | app/utils/dosing_manager.py:90-91 | with the stored defaults the window runs from 22:00 to 06:00 |
| DosingManager.DefaultNightExamples | app/utils/dosing_manager.py:90-109 | with the default window 23:30 and 02:00 are night and noon is not |
| DosingManager.AmountMl | app/utils/dosing_manager.py:139 | a non-negative duration at a non-negative flow rate is a non-negative amount |
| DosingManager.ReasonOrManual | app/utils/dosing_manager.py:184 | a given non-empty reason is kept; otherwise the reason is 'manual' |
| DosingManager.SensorBefore | app/utils/dosing_manager.py:145-149 | the caller's reading wins; a pump that is neither pH nor nutrient records none of its own |
| DosingManager.SensorAfter | app/utils/dosing_manager.py:161-177 | only pH and nutrient pumps take a reading after dosing |
| DosingManager.AfterAppend | app/utils/dosing_manager.py:114-210 | replaying the effects of two activations one after the other equals replaying them together |
| DosingManager.GateRefusalChangesNothing | app/utils/dosing_manager.py:121-136 | a refused activation fails with no effect: no stamp, no pin write, no event |
| DosingManager.MissingOrNightRefused | app/utils/dosing_manager.py:120-128 | a missing or disabled pump, or night mode, refuses the activation |
| DosingManager.CooldownRefusesEveryReason | app/utils/dosing_manager.py:130-136 | an enabled pump whose type was dosed less than its wait time ago is refused, whatever the reason |
| DosingManager.StampComesFirst | app/utils/dosing_manager.py:141-152 | once the gates pass, the cooldown stamp is the first effect and stays whatever fails later |
| DosingManager.SuccessfulActivation | app/utils/dosing_manager.py:138-200 | success means stamp, pin high, pin low, the logged event with amount and reason, and the emit, with the pin ending low |
| DosingManager.RunPumpSucceeds | app/utils/dosing_manager.py:151-200 | the dose succeeds exactly when every step does, and then has five effects |
| DosingManager.PinNeverLeftHigh | app/utils/dosing_manager.py:202-210 | with an open chip and a working clean-up write, no activation leaves the pump's pin high |
| DosingManager.ClosedChipWritesNothing | app/utils/dosing_manager.py:152-210 | without an open GPIO chip no pin is written and the request fails after stamping |
| DosingManager.EmitFailureReportsFailure | app/utils/dosing_manager.py:189-203 | when the emit raises, the pump has dosed and the event is logged, yet failure is reported |
| DosingManager.DoseRoundTrip | app/utils/dosing_manager.py:139 | running for `calculate_dosing_time(amount)` delivers at most `amount`, and less by under one millisecond's flow |
| DosingManager.DoseAmount | app/utils/dosing_manager.py:212-218 | pH types dose `ph_dose_amount` (1.0), nutrient types `ec_dose_amount` (5.0), any other type 1.0 |
| DosingManager.DoseAmountNutrient | app/utils/dosing_manager.py:216-217 | every type starting with 'nutrient' doses `ec_dose_amount` |
| DosingManager.DurationFor | app/utils/dosing_manager.py:256-257 | a pump without positive flow gives 0 ms; otherwise the time exists iff the amount is a number, and equals the pump's dosing time |
| DosingManager.DoseFirst | app/utils/dosing_manager.py:252-265 | a dose goes to the first enabled pump of the type with the given reason and reading, and exists whenever such a pump and a numeric amount do |
| DosingManager.PhRequestRule | app/utils/dosing_manager.py:227-292 | pH Up is dosed only below the minimum, pH Down only above the maximum, nothing otherwise or without a reading |
| DosingManager.PhInRangeNoDose | app/utils/dosing_manager.py:291-292 | a pH within [min, max] doses nothing |
| DosingManager.PhLowDefault | app/utils/dosing_manager.py:242-265 | under the defaults pH 5.5 doses 1 ml from the first enabled pH Up pump |
| DosingManager.PhHighDefault | app/utils/dosing_manager.py:267-290 | under the defaults pH 6.5 doses from the first enabled pH Down pump for reason 'ph_high' |
| DosingManager.FirstOfEach | app/utils/dosing_manager.py:323-342 | at most one request per type, each for reason 'ec_low' with the reading before |
| DosingManager.FirstOfEachPumps | app/utils/dosing_manager.py:323-330 | every request goes to the first enabled pump of one of the walked types |
| DosingManager.FirstOfEachNone | app/utils/dosing_manager.py:324-327 | with no enabled pump of any walked type nothing is dosed |
| DosingManager.EcOnlyWhenLow | app/utils/dosing_manager.py:318-347 | an EC at or above the minimum never doses |
| DosingManager.EcIgnoresMigratedPumps | app/utils/dosing_manager.py:323 | a table whose nutrient pumps all have the current type 'nutrient' is never dosed by the EC rule |
| DosingManager.EcDosesLegacyPumps | app/utils/dosing_manager.py:319-342 | below the minimum each request goes to the first enabled pump of a legacy nutrient type |
| DosingManager.EcDosesInTypeOrder | app/utils/dosing_manager.py:323-342 | with nutrient_a and nutrient_b pumps, nutrient_a is dosed first and nutrient_b second |
| DosingManager.ScheduledJobs | app/utils/dosing_manager.py:54-80 | nothing is scheduled while auto-dosing is off; otherwise the pH check then the EC check, at 300 s unless configured |
| DosingManager.RunRequestsSnoc | app/utils/dosing_manager.py:323-345 | a further request in a series acts on the cooldown stamps left by those before it |
| DosingManager.Doser.constructor | app/utils/dosing_manager.py:15-35 | no type has been dosed, no pin written, nothing traced |
| DosingManager.Doser.StampDose | app/utils/dosing_manager.py:142 | the type's last dosing time becomes the stamp and nothing else changes |
| DosingManager.Doser.WritePin | app/utils/dosing_manager.py:152-159 | the pin takes the level and nothing else changes |
| DosingManager.Doser.CleanupPin | app/utils/dosing_manager.py:205-209 | the handler writes the pin low only when the chip is open and the write succeeds |
| DosingManager.Doser.ActivatePump | app/utils/dosing_manager.py:114-210 | the state and reply are exactly those of the `Activate` specification |
| DosingManager.Doser.CheckGates | app/utils/dosing_manager.py:120-136 | the gate the method reaches is `ActivationGate` |
| DosingManager.Doser.DoseWithFirst | app/utils/dosing_manager.py:252-265 | activates what `DoseFirst` calls for, or changes nothing |
| DosingManager.Doser.CheckAndAdjustPh | app/utils/dosing_manager.py:220-295 | activates exactly what `PhRequest` calls for, or changes nothing |
| DosingManager.Doser.CheckAndAdjustEc | app/utils/dosing_manager.py:297-350 | runs the activations of `EcRequests` in order, each seeing the stamps of the ones before |
| DosingManager.Doser.DoseEachType | app/utils/dosing_manager.py:323-345 | the loop runs the activations of `FirstOfEach`, in order |
| AutoConfig.ClassifyPumpCorrect | app/models/settings.py:232-244 | the role found has a matching term in the pump's lower-cased text, no group searched earlier matches, and grow is the default when nothing matches |
| AutoConfig.ClassifyIgnoresCase | app/models/settings.py:233 | upper-casing the pump's names does not change its role |
| AutoConfig.NutrientNameWins | app/models/settings.py:233 | a non-empty nutrient name decides the role and the pump's own name is ignored |
| AutoConfig.ClassifyGrowFirst | app/models/settings.py:234-241 | "Calcium Veg" is grow: the grow group is searched before calmag |
| AutoConfig.ClassifyBloomBeforeMicro | app/models/settings.py:236-239 | "Micro Bloom" is bloom: bloom is searched before micro |
| AutoConfig.ClassifyDefault | app/models/settings.py:242-244 | a name with no known term is grow |
| AutoConfig.PumpsNaming | app/models/settings.py:251-252 | a pump is listed iff its nutrient name contains the term |
| AutoConfig.Refs | app/models/settings.py:258 | one id/name pair per pump, in order |
| AutoConfig.CheckIncompatibility | app/models/settings.py:247-261 | at most one warning, present iff some nutrient name contains 'cal' and some contains 'phos', listing the calcium pumps then the phosphate pumps |
| AutoConfig.IncompatibilityIgnoresNames | app/models/settings.py:251-252 | renaming pumps while keeping their nutrient names does not change whether a warning is raised |
| AutoConfig.DosingOrder | app/models/settings.py:285-290 | the four roles get the distinct ranks 1 to 4 |
| AutoConfig.DosingOrderInjective | app/models/settings.py:285-290 | distinct roles have distinct ranks |
| AutoConfig.RatioFor | app/models/settings.py:300 | the profile's ratio for the role, 1.0 when it has none |
| AutoConfig.Unsorted | app/models/settings.py:292-312 | at most one component per pump, exactly one when all are enabled, each with its role and that role's rank |
| AutoConfig.Insert | app/models/settings.py:315 | inserting adds exactly one element |
| AutoConfig.SortByOrder | app/models/settings.py:315 | the sort keeps the length |
| AutoConfig.SortByOrderSorted | app/models/settings.py:315 | the result is ordered by rank |
| AutoConfig.SortByOrderPermutes | app/models/settings.py:315 | the result is a permutation of the input |
| AutoConfig.SortByOrderStable | app/models/settings.py:315 | components of equal rank keep their input order |
| AutoConfig.CalMagBeforeBloom | app/models/settings.py:285-315 | in a built list every calmag component precedes every bloom component |
| AutoConfig.BuildComponents | app/models/settings.py:282-315 | the new list is the stable sort of one component per enabled pump, sorted and a permutation |
| AutoConfig.CollectComponents | app/models/settings.py:292-312 | the append loop yields `Unsorted` |
| AutoConfig.Replaced | app/models/settings.py:271-320 | a list is replaced iff the profile is not custom, has ratios, and the new list is non-empty with a length different from the stored one; otherwise the profile is untouched |
| AutoConfig.SkippedProfilesUntouched | app/models/settings.py:272-279 | custom (or unflagged) profiles and profiles without ratios are never changed |
| AutoConfig.NoPumpsKeepComponents | app/models/settings.py:318 | without nutrient pumps no profile loses its components |
| AutoConfig.DoseOf | app/models/settings.py:339-349 | a dosed component is the same component with both dose fields set |
| AutoConfig.Dosed | app/models/settings.py:339-349 | every component is dosed, in order |
| AutoConfig.WithDoses | app/models/settings.py:323-349 | only the component list changes, never its presence or length |
| AutoConfig.PerLitreSumsToBase | app/models/settings.py:326-343 | before rounding, the per-litre doses sum to `ec_setpoint/1350*3.0` |
| AutoConfig.PerLitreLinearInEc | app/models/settings.py:332-343 | before rounding, each dose scales linearly with the EC setpoint |
| AutoConfig.NutrientPumpsMembers | app/models/settings.py:220-223 | the nutrient pumps are exactly the enabled rows of type 'nutrient' |
| AutoConfig.Reconfigured | app/models/settings.py:271-349 | every profile id is kept |
| AutoConfig.ReplacedSettles | app/models/settings.py:318 | a profile just reconfigured is not replaced again |
| AutoConfig.RerunNotUpdated | app/models/settings.py:318-353 | rerunning on the persisted profiles reports `updated == False` |
| AutoConfig.NoPumpsNoUpdate | app/models/settings.py:318-353 | with no nutrient pumps nothing is replaced or persisted |
| AutoConfig.SumRatios | app/models/settings.py:326 | the loop computes the ratio sum |
| AutoConfig.DoseEach | app/models/settings.py:339-349 | the loop computes `Dosed` |
| AutoConfig.ComputeDoses | app/models/settings.py:323-349 | one profile's doses are `WithDoses` |
| AutoConfig.ReplaceComponents | app/models/settings.py:271-320 | one profile's first pass is `Replaced` |
| AutoConfig.FirstPass | app/models/settings.py:271-320 | every profile goes through `Replaced`, and `updated` says whether any list was replaced |
| AutoConfig.SecondPass | app/models/settings.py:323-349 | every profile goes through `WithDoses` |
| AutoConfig.PassesCompose | app/models/settings.py:271-349 | the two passes together compute `Reconfigured` |
| AutoConfig.BothPasses | app/models/settings.py:220-359 | the result reports `updated`, the nutrient pump count and the incompatibilities, and the profiles are `Reconfigured` |
| AutoConfig.AutoConfigure | app/models/settings.py:211-359 | the incompatibilities are always stored, the profiles are written only when `updated`, the scalar settings are unchanged, and the reply is as in `BothPasses` |
| AutoConfig.WorkedReplaced | app/models/settings.py:292-320 | a Grow pump and a Bloom pump give a grow component of ratio 1 before a bloom component of ratio 2 |
| AutoConfig.WorkedDoseExample | app/models/settings.py:332-349 | at 1350 µS/cm those components get 1.0 and 2.0 ml/L, that is 3.78 and 7.57 ml/gal |
| AutoConfig.DosesOfOneTwo | app/models/settings.py:326-349 | ratios 1 and 2 at 1350 µS/cm give 1 and 2 ml per litre |
| Garden.SplitOnce | app/controllers/garden.py:769 | the two parts, joined by the separator, give back the text, and the first holds no separator |
| Garden.ParseEntry | app/controllers/garden.py:764-777 | an entry is read iff its stripped text is non-empty and has a colon |
| Garden.PiecesBounds | app/controllers/garden.py:780-796 | one optional week range per piece, in order |
| Garden.ParseEntries | app/controllers/garden.py:761-763 | one optional entry per piece of the text, in order |
| Garden.DefaultPhases | app/controllers/garden.py:744-753 | without text, weeks up to 3 are Seedling, up to 6 Vegetative, later Flowering |
| Garden.AssignRangeLabels | app/controllers/garden.py:782-786 | `a-b` labels exactly weeks a..b inclusive, nothing when a > b, and keeps other labels |
| Garden.ApplyBoundsLabels | app/controllers/garden.py:780-796 | an entry labels exactly the weeks one of its ranges covers and leaves the others alone |
| Garden.EntryLabels | app/controllers/garden.py:763-796 | an entry naming the week relabels it; any other entry leaves its label alone |
| Garden.UncoveredWeekUnlabelled | app/controllers/garden.py:763-796 | a week no entry names gets no label |
| Garden.LaterEntriesKeep | app/controllers/garden.py:763-796 | later entries that do not name a week keep its label |
| Garden.UncoveredWeekIsUnknown | app/controllers/garden.py:806 | with a text, a week no entry names is "Unknown" |
| Garden.LastCoveringEntryWins | app/controllers/garden.py:785-793 | the last entry that names a week gives its label |
| Garden.LastCoveringEntryLabels | app/controllers/garden.py:742-806 | with a text, the phase of a week is the name of the last entry naming it |
| Garden.GrowthPhaseForWeek | app/controllers/garden.py:742-806 | the loops compute `GrowthPhase` |
| Garden.LabelEntries | app/controllers/garden.py:763-796 | the entry loop computes the labels of the parsed entries |
| Garden.LabelWeeks | app/controllers/garden.py:780-796 | the week-piece loop applies each piece's range |
| Garden.LabelRange | app/controllers/garden.py:785-786 | the range loop is `AssignRange` |
| Garden.EntryFormatsAgree | app/controllers/garden.py:771-777 | "name: weeks" and "weeks: name" give the same entry |
| Garden.WeekBoundsOfRange | app/controllers/garden.py:782-786 | the text `a-b` names weeks a to b |
| Garden.WeekBoundsOfWeek | app/controllers/garden.py:790-793 | the text of one number names that single week |
| Garden.ProfileIdShape | app/controllers/garden.py:99 | the id has the name's length, no blank, no upper-case letter, and is the lower-cased name with blanks made '_' |
| Garden.WeekDefaultsCover | app/controllers/garden.py:127-137 | the default schedule has exactly weeks 1 to N, all alike |
| Garden.ProfilePumps | app/controllers/garden.py:68-71 | exactly the enabled nutrient, pH Up and pH Down pumps |
| Garden.PumpWithId | app/controllers/garden.py:150 | the first pump whose id reads as the text, or none when no pump's does |
| Garden.ParsedRatios | app/controllers/garden.py:147 | one parsed ratio per text |
| Garden.FormComponentsSound | app/controllers/garden.py:144-160 | components come from allowed pumps with their parsed ratios, at most one per pair, and the request fails exactly when some ratio is not a number |
| Garden.AddProfileKeepsOthers | app/controllers/garden.py:94-124 | a profile is added only under a fresh id made from a non-empty name, as a custom profile with the submitted values or their defaults; no other profile changes |
| Garden.AddedWeeklySchedule | app/controllers/garden.py:127-141 | with the weekly box and N weeks the profile starts in week 1 of a schedule of weeks 1 to N |
| Garden.AddProfile | app/controllers/garden.py:62-172 | the outcome and the stored profiles are those of `AddProfileSpec`; the scalar settings do not change |
| Garden.SaveAndConfigure | app/controllers/garden.py:165-169 | the profiles become the configured map and the incompatibilities are recomputed |
| Garden.DefaultWeeks | app/controllers/garden.py:133-137 | the loop builds the default schedule |
| Garden.CollectComponents | app/controllers/garden.py:144-160 | the loop builds `FormComponents`, aborting on a ratio that is not a number |
| Garden.StaysAborted | app/controllers/garden.py:147 | once a ratio fails the whole request fails |
| Garden.DeleteOnlyInactiveCustom | app/controllers/garden.py:394-424 | only an existing, inactive, custom profile is deleted, and nothing else with it |
| Garden.BuiltInProfilesKept | app/controllers/garden.py:414 | the built-in profiles cannot be deleted |
| Garden.DeleteProfile | app/controllers/garden.py:394-424 | the outcome and profiles are those of `DeleteProfileSpec` |
| Garden.DuplicateKeepsSource | app/controllers/garden.py:426-456 | the copy keeps every setting but the name (suffixed " (Copy)") and the custom flag; the source is unchanged |
| Garden.DuplicateProfile | app/controllers/garden.py:426-456 | a known id is duplicated as `DuplicateProfileSpec`; otherwise nothing changes |
| Garden.ActivationSetsTargets | app/controllers/garden.py:459-494 | activation makes the profile active, copies its targets or their defaults, lets the current week's schedule decide the EC when it has one, and changes no other setting |
| Garden.ActivatedProfileNotDeletable | app/controllers/garden.py:405-474 | an activated profile is refused by delete |
| Garden.ActivateProfile | app/controllers/garden.py:459-494 | a known id updates the settings as `ActivatedValues`; otherwise nothing changes |
| Garden.FirstScheduled | app/controllers/garden.py:599-604 | the first profile in stored order with week schedules, or none when no profile has them |
| Garden.CycleProfile | app/controllers/garden.py:592-607 | the chosen profile always has week schedules |
| Garden.GrowCycleMoves | app/controllers/garden.py:621-690 | a move changes only the chosen profile's week, within 1..total for set and next, and the EC only to that week's scheduled value and only for the stored active profile |
| Garden.FallbackLeavesSettings | app/controllers/garden.py:597-635 | when the active profile is missing the fallback profile moves but no setting changes |
| Garden.ActiveWithoutScheduleHasNoCycle | app/controllers/garden.py:597-607 | an active profile without schedules disables the page whatever the others hold |
| Garden.ResetIdempotent | app/controllers/garden.py:674-689 | resetting twice equals resetting once |
| Garden.SameCycleProfile | app/controllers/garden.py:592-607 | moving the week does not change which profile the page works on |
| Garden.GrowCycle | app/controllers/garden.py:589-715 | the outcome and settings are those of `GrowCycleSpec`; the profiles are auto-configured after every move and on a view of stale components, and otherwise stay as stored |
| Garden.ViewSettles | app/controllers/garden.py:693-715 | a view never moves a week or changes a setting, runs the auto-configuration exactly when the page's profile lists components, and changes nothing when it follows a request that already ran it |
| Garden.ConfiguredSettles | app/controllers/garden.py:711-713 | auto-configuring what the auto-configuration stored changes nothing |
| Garden.MoveWeek | app/controllers/garden.py:630-641 | the profile moves to the week and the settings follow `MovedTo` |
| SensorManager.Address | app/utils/sensor_manager.py:15-19 | exactly ph, ec and temp have an address: 0x63, 0x64 and 0x66 |
| SensorManager.AddressesDistinct | app/utils/sensor_manager.py:15-19 | distinct sensors sit at distinct addresses |
| SensorManager.WritesToShape | app/utils/sensor_manager.py:159-160 | one write per byte, in order, all to the one address |
| SensorManager.AfterSend | app/utils/sensor_manager.py:147-163 | sending fails iff the bus is not open, and then changes nothing |
| SensorManager.SendCommandRoundTrip | app/utils/sensor_manager.py:155-160 | an ASCII command appends writes to its address whose bytes decode back to the command, and nothing else changes |
| SensorManager.Frame | app/utils/sensor_manager.py:174-179 | a reply frame is the length byte followed by the payload |
| SensorManager.ResponseOf | app/utils/sensor_manager.py:165-185 | reading touches only the device's pending bytes; without a bus or with nothing pending it raises and changes nothing |
| SensorManager.ReadFramed | app/utils/sensor_manager.py:174-182 | a framed ASCII reply reads back as its stripped text, leaving what follows pending (round trip with `Frame`) |
| SensorManager.ReadShort | app/utils/sensor_manager.py:178-185 | a reply shorter than its length byte announces raises and consumes what was pending |
| SensorManager.LatestStored | app/utils/sensor_manager.py:225 | the value comes from a stored row of the type, and there is none iff the table has no row of it |
| SensorManager.LatestAfterAdd | app/utils/sensor_manager.py:191-225 | a new row is the latest of its type and hides no other type's latest row |
| SensorManager.LastReadingOf | app/utils/sensor_manager.py:218-231 | the cached value first; else the latest stored one, which is then cached; else the default; only the cache changes |
| SensorManager.LastReadingSettles | app/utils/sensor_manager.py:218-231 | asking twice gives the same answer and the second call changes nothing |
| SensorManager.LastReadingIsLatest | app/utils/sensor_manager.py:218-231 | with a coherent cache the answer is the table's latest value, or the default |
| SensorManager.Interpret | app/utils/sensor_manager.py:136-145 | an error leaves the state alone; a parsed value is cached under the sensor's type |
| SensorManager.ReadSensorRejects | app/utils/sensor_manager.py:107-111 | without a bus or for an unknown type the read fails and nothing changes |
| SensorManager.ReadSensorCommands | app/utils/sensor_manager.py:115-122 | pH and EC first get `T,<last temperature or 25.00>`, then `R`; the temperature sensor gets only `R` |
| SensorManager.ReadSensorReply | app/utils/sensor_manager.py:133-145 | a '?' reply is a device error, a non-number an invalid response, and a number is returned and cached |
| SensorManager.ReadSensorCachesOnlySuccess | app/utils/sensor_manager.py:139-145 | a read leaves the bus handle and the table alone and caches a value of its own only when it succeeds |
| SensorManager.LoggedReadStores | app/utils/sensor_manager.py:187-205 | a reading is stored iff the read succeeds, and the caller sees it only when the emit succeeds too |
| SensorManager.LoggedReadCoherent | app/utils/sensor_manager.py:187-205 | `read_and_log_sensor` keeps the cache agreeing with the table |
| SensorManager.ReadEachKeys | app/utils/sensor_manager.py:207-216 | every type read gets an entry; with the emit failing every entry is None |
| SensorManager.ReadEachCoherent | app/utils/sensor_manager.py:207-216 | reading all sensors keeps the cache agreeing with the table |
| SensorManager.ReadAllKeys | app/utils/sensor_manager.py:207-216 | the answer has exactly the keys ph, ec and temp |
| SensorManager.PlainReadBreaksCoherence | app/utils/sensor_manager.py:139-143 | a plain read of a type without stored rows caches a value the table does not hold |
| SensorManager.PhDefaultValue | app/utils/sensor_manager.py:241-245 | exactly mid, low and high have a default buffer |
| SensorManager.PhCalibrationCommand | app/utils/sensor_manager.py:233-251 | the command fails iff the point is not mid, low or high |
| SensorManager.EcCalibrationCommand | app/utils/sensor_manager.py:262-275 | an unknown point fails, dry sends `Cal,dry`, and the other points need a value |
| SensorManager.Calibrated | app/utils/sensor_manager.py:250-260 | calibration never touches the cache or the table |
| SensorManager.PhCalibrationDefaults | app/utils/sensor_manager.py:241-248 | without a value mid, low and high use 7.00, 4.00 and 10.00 |
| SensorManager.CalibrationRejects | app/utils/sensor_manager.py:235-275 | a rejected request puts nothing on the bus |
| SensorManager.CalibrationSends | app/utils/sensor_manager.py:250-260 | an accepted calibration writes exactly its command and succeeds iff the readable acknowledgement does not start with '?' |
| SensorManager.SensorClient.constructor | app/utils/sensor_manager.py:27-35 | no bus yet and an empty cache |
| SensorManager.SensorClient.WriteByte | app/utils/sensor_manager.py:160 | one write is appended to the bus log |
| SensorManager.SensorClient.ReadByte | app/utils/sensor_manager.py:174-179 | the device's next pending byte is consumed, or None when it has none |
| SensorManager.SensorClient.SendCommand | app/utils/sensor_manager.py:147-163 | the byte loop computes `AfterSend` |
| SensorManager.SensorClient.ReadResponse | app/utils/sensor_manager.py:165-185 | the byte loop computes `ResponseOf` |
| SensorManager.SensorClient.GetLastReading | app/utils/sensor_manager.py:218-231 | the result and new state are `LastReadingOf` |
| SensorManager.SensorClient.ReadSensor | app/utils/sensor_manager.py:103-145 | the result and new state are `SensorRead` |
| SensorManager.SensorClient.ReadAndLogSensor | app/utils/sensor_manager.py:187-205 | the result and new state are `LoggedRead` |
| SensorManager.SensorClient.ReadAllSensors | app/utils/sensor_manager.py:207-216 | the loop computes `ReadEach` over ph, ec, temp |
| SensorManager.SensorClient.InitSensors | app/utils/sensor_manager.py:37-64 | the state becomes `Initialised`: open the bus, probe each sensor, then read all |
| SensorManager.SensorClient.CalibratePh | app/utils/sensor_manager.py:233-260 | the result and new state are `PhCalibration` |
| SensorManager.SensorClient.CalibrateEc | app/utils/sensor_manager.py:262-287 | the result and new state are `EcCalibration` |
| SensorManager.SensorClient.CalibrateTemperature | app/utils/sensor_manager.py:289-303 | the result and new state are `TemperatureCalibration` |
| SensorData.Limit | app/models/sensor_reading.py:39 | SQL LIMIT keeps a prefix of the rows |
| SensorData.Prefix | app/models/sensor.py:77 | Python slicing keeps a prefix of the list |
| SensorData.OldestFirstSorts | app/models/sensor.py:102 | the range query's order is oldest first and holds exactly the given rows |
| SensorData.NewestFirstSorts | app/models/sensor_reading.py:37-38 | the history query's order is newest first and holds exactly the given rows |
| SensorData.NewestIsLatest | app/models/sensor_reading.py:24-31 | `get_latest` of a type finds a newest row of that type, and none only when there is none |
| SensorData.MaxOf | app/models/sensor.py:45 | the maximum is one of the instants and no instant exceeds it |
| SensorData.LatestValues | app/models/sensor.py:32-52 | each field is its sensor's newest value, None exactly when the sensor has no reading |
| SensorData.LatestInstant | app/models/sensor.py:36-45 | a sample always results; its instant is the newest reading instant, or now when there is none |
| SensorData.NewestAgreesWithClient | app/models/sensor_reading.py:24-31 | with rows stored in instant order, `get_latest` agrees with the sensor client's latest stored value |
| SensorData.ByTimeKeys | app/models/sensor.py:66-68 | the dictionary's keys are the series' instants |
| SensorData.ByTimeLastWins | app/models/sensor.py:66-68 | the value kept for an instant is that of the series' last row at that instant |
| SensorData.ByTimeFromSeries | app/models/sensor.py:66-68 | every value kept comes from a row at that instant |
| SensorData.Merge | app/models/sensor.py:80-87 | one sample per instant, in order, holding each sensor's value at that instant |
| SensorData.MergeInstants | app/models/sensor.py:80-87 | the merge keeps the given instants, in order |
| SensorData.SortedSetSorts | app/models/sensor.py:71-124 | `sorted(set(...))` lists each instant once, oldest first |
| SensorData.RisingUnique | app/models/sensor.py:122-124 | there is only one rising list of a set of instants |
| SensorData.RecentRows | app/models/sensor_reading.py:33-39 | the history query keeps rows of the type only, newest first |
| SensorData.RecentCount | app/models/sensor_reading.py:39 | it keeps `limit` rows, or all of them when there are fewer or the limit is negative |
| SensorData.RecentIsNewest | app/models/sensor_reading.py:37-39 | no row of the type newer than a kept one is dropped |
| SensorData.HistoryStampsFalling | app/models/sensor.py:71-74 | the merged instants are the distinct instants of the three series, newest first |
| SensorData.PrefixOfFalling | app/models/sensor.py:77 | truncating a newest-first list keeps the newest instants |
| SensorData.HistoryTimes | app/models/sensor.py:55-89 | the history's instants are distinct, newest first, each from a fetched series, the newest of them, `limit` of them or all when fewer |
| SensorData.HistoryEntries | app/models/sensor.py:80-87 | each history entry holds each sensor's value at exactly its instant, None where there is none |
| SensorData.InRangeRows | app/models/sensor.py:98-114 | the range query returns exactly the rows of the type inside the closed interval, oldest first |
| SensorData.RangeInstant | app/models/sensor.py:116-124 | an instant is in the merged range iff some sensor row inside the interval has it |
| SensorData.RangeTimes | app/models/sensor.py:92-136 | the range's instants are distinct, oldest first, and exactly those of rows inside [start, end] |
| SensorData.KindEntry | app/models/sensor.py:117-119 | at an instant of the interval a type's dictionary holds a value iff a row of the type was stored then |
| SensorData.RangeEntries | app/models/sensor.py:126-134 | each range entry holds a sensor's value iff a row of that sensor was stored at its instant, and that value is one stored there |
| SensorData.LatestStoredIsLastOfKind | app/utils/sensor_manager.py:224-229 | the value the sensor client falls back to is that of the last stored row of the type, none when there is none |
| PumpApi.CreateRules | app/controllers/api.py:220-266 | 400 iff the body or a required field is missing, 403 iff a complete body asks for a pH type; otherwise the stored pump has type 'nutrient', the given fields and `enabled` defaulting to true |
| PumpApi.CreateAllowsSharedPin | app/controllers/api.py:250-266 | a pump is stored even when another pump already uses its pin |
| PumpApi.CreatePump | app/controllers/api.py:220-277 | the reply code and the new table are those of `CreateDecision`, and ids stay unique |
| PumpApi.PinHolder | app/controllers/api.py:315 | another pump on the pin, or none iff every other pump uses a different pin |
| PumpApi.Put | app/controllers/api.py:351-352 | the row with the pump's id is replaced and no other row changes |
| PumpApi.UpdatePhPump | app/controllers/api.py:289-302 | a pH pump can change only its enabled flag, a body without it is refused with 403, and profiles are never reconfigured |
| PumpApi.UpdatePinRules | app/controllers/api.py:312-321 | a pin held by another pump gives 400 and nothing is stored; the pump's own pin is always accepted |
| PumpApi.UpdateReconfigures | app/controllers/api.py:304-362 | profiles are reconfigured iff the update is accepted and name, brand, nutrient name or an N-P-K value actually changes |
| PumpApi.PinAndEnabledDontReconfigure | app/controllers/api.py:312-325 | a body that only moves the pin or toggles the pump never reconfigures |
| PumpApi.UpdateNormalisesType | app/controllers/api.py:347-349 | an accepted update keeps the id and rewrites a legacy 'nutrient_*' type to 'nutrient' |
| PumpApi.UpdateSettles | app/controllers/api.py:307-349 | sending the same update again changes nothing more and does not reconfigure |
| PumpApi.PutKeepsIds | app/controllers/api.py:351-352 | replacing a row by one with the same id keeps ids unique |
| PumpApi.Reconfigure | app/controllers/api.py:356-416 | auto-configuration over the current table updates the profiles and the incompatibilities only |
| PumpApi.UpdatePump | app/controllers/api.py:279-368 | the code, the table and the profiles follow `UpdateDecision`, reconfiguring only when it says so |
| PumpApi.Without | app/controllers/api.py:412 | exactly the rows with another id remain |
| PumpApi.DeleteKeepsPhPumps | app/controllers/api.py:404-409 | every pH pump survives any delete request |
| PumpApi.DeletePump | app/controllers/api.py:391-426 | 404 for an unknown id, 403 for a pH pump, otherwise the row is removed and auto-configuration always runs |
| PumpApi.ManualDoseRules | app/controllers/api.py:116-144 | a given amount sets the duration by `calculate_dosing_time`; otherwise the given duration, 1000 ms when absent or 0; the reason is always 'manual' |
| PumpApi.MigrationCount | app/controllers/api.py:1176-1184 | the count never exceeds the number of pumps |
| PumpApi.MigratedRows | app/controllers/api.py:1177-1184 | each row is migrated in place, in order |
| PumpApi.PhNeverMatches | app/controllers/api.py:1178-1180 | no pH type matches the pattern, so the pH skip never applies |
| PumpApi.PatternCoversLegacyTypes | app/controllers/api.py:1172-1174 | every 'nutrient_*' type is matched |
| PumpApi.PatternSkipsGenericType | app/controllers/api.py:1172-1174 | 'nutrient' itself is not matched: '_' needs one more character |
| PumpApi.MigrationSettles | app/controllers/api.py:1168-1193 | a second migration retypes nothing (idempotent) |
| PumpApi.MigrationCountsChanges | app/controllers/api.py:1184-1188 | the count is positive iff some pump's type changed, so the commit happens exactly then |
| PumpApi.MigratePumpTypes | app/controllers/api.py:1168-1193 | the loop retypes every matching pump, counts them and commits iff the count is positive |
| PumpApi.NutrientTypeRules | app/controllers/api.py:1014-1021 | a non-empty type outside grow, bloom, micro, calmag, other is refused with 400, and the five pass the type validation |
| DosingPages.FirstOnPin | app/controllers/dosing.py:60-116 | the first pump in table order on the pin, or none iff no pump uses it |
| DosingPages.AddPumpRules | app/controllers/dosing.py:45-78 | a pump is added iff the form is complete (pin not 0) and its pin is free; it starts enabled; a refusal names the pin's holder |
| DosingPages.AddKeepsPinsDistinct | app/controllers/dosing.py:60-76 | adding through this page keeps pins distinct |
| DosingPages.AddPump | app/controllers/dosing.py:45-78 | the outcome and table follow `AddPumpDecision`, appending the new row |
| DosingPages.EditKeepsPinsDistinct | app/controllers/dosing.py:111-129 | with distinct pins an edit is refused iff another pump holds the new pin, and pins stay distinct |
| DosingPages.EditChecksFirstHolderOnly | app/controllers/dosing.py:116-117 | with two pumps sharing a pin, editing the first onto that pin is accepted although the other still holds it |
| DosingPages.EditPump | app/controllers/dosing.py:97-131 | the outcome and table follow `EditPumpDecision` |
| DosingPages.CalibrationRoundTrip | app/controllers/dosing.py:158-170 | after calibrating, dosing the measured volume takes exactly the calibration's duration; the flow rate is positive iff both inputs are |
| DosingPages.CalibratePump | app/controllers/dosing.py:151-176 | missing or zero inputs are refused; otherwise only the pump's flow rate changes, to volume / (duration / 1000) |
| DosingPages.TestDuration | app/controllers/dosing.py:190 | the body's duration, 1000 ms when absent |
| DosingPages.TestRunIsAnActivation | app/controllers/dosing.py:185-197 | a pump test is an activation with reason 'test', refused under the cooldown like any dose |
| DosingPages.SeededProfiles | app/controllers/dosing.py:245-301 | the page seeds exactly the five built-in ids |
| DosingPages.SeededProfilesSkipped | app/controllers/dosing.py:245-301 | seeded profiles have neither 'custom' nor ratios, so auto-configuration skips them, and carry all four setpoints |
| DosingPages.PutNum | app/controllers/dosing.py:359-379 | a present form number is written, an absent one leaves the setting |
| DosingPages.PutText | app/controllers/dosing.py:381-384 | a non-empty text is written, an empty or absent one leaves the setting |
| DosingPages.WrittenReads | app/controllers/dosing.py:359-384 | each setpoint and dose amount holds the written value, or the old one when none was written; the switches are untouched by these writes |
| DosingPages.OverrideChoice | app/controllers/dosing.py:339-357 | field by field, the setpoints come from the chosen profile when the form value is missing or equals the current setting |
| DosingPages.PreparedKeeps | app/controllers/dosing.py:245-335 | seeding and the switches leave setpoints and dose amounts alone and store both switches |
| DosingPages.SettingsOverrideAdopts | app/controllers/dosing.py:339-357 | a missing or unchanged form setpoint is replaced by the profile's value |
| DosingPages.SettingsOverrideKeeps | app/controllers/dosing.py:303-384 | a changed setpoint is kept, a blank dose amount keeps the stored one, and both switches are written |
| DosingPages.SettingsMissingKeyFails | app/controllers/dosing.py:334-348 | a profile lacking an adopted setpoint ends the request after the switches and the choice were saved |
| DosingPages.SeededSelectionSucceeds | app/controllers/dosing.py:245-357 | selecting a seeded profile never fails |
| DosingPages.DosingSettings | app/controllers/dosing.py:243-390 | profiles are seeded when missing; the scalar settings become those of `Prepared` then the override writes, or stop after `Prepared` on a KeyError |
| DosingPages.CustomIdNotBuiltIn | app/controllers/dosing.py:452 | a generated custom id is never a built-in id |
| DosingPages.OrElse | app/controllers/dosing.py:461-466 | `x or default`: a missing value and 0 both give the default |
| DosingPages.AddedProfileRules | app/controllers/dosing.py:447-471 | the new profile is custom, has no ratios, never takes a built-in id, and deleting it again restores the profiles when its id was new |
| DosingPages.AddProfile | app/controllers/dosing.py:433-477 | a profile is added iff a name is given |
| DosingPages.EditProfileRules | app/controllers/dosing.py:480-530 | built-in profiles are never edited; an edit keeps every key the form does not carry |
| DosingPages.EditProfile | app/controllers/dosing.py:480-538 | the outcome and profiles follow `EditProfileSpec` |
| DosingPages.DeleteProfileRules | app/controllers/dosing.py:541-572 | a stored profile that is not built in is deleted, custom or not, exactly when it has a `name`; without one the request fails with a KeyError after the checks and keeps the profiles; in both cases the active profile falls back to 'general' when it was the one named; a missing or built-in id changes nothing |
| DosingPages.DeleteProfile | app/controllers/dosing.py:541-572 | the outcome, profiles and active setting follow `DeleteProfileSpec` and `ActiveAfterDelete`: the active-profile fallback is stored before the name is read, so it survives the KeyError |
| DosingPages.DuplicateRules | app/controllers/dosing.py:575-600 | the copy is named "Copy of <name>", is custom, keeps everything else, and the source is untouched unless the ids collide |
| DosingPages.DuplicateProfile | app/controllers/dosing.py:575-603 | the profiles follow `DuplicateProfileSpec` |
| Recipes.AddRecipeRules | app/controllers/recipes.py:38-51 | a recipe is created iff a name is given, under the new id, active, with nothing else changed; the tables stay consistent |
| Recipes.AddPartRules | app/controllers/recipes.py:122-160 | a component is added iff the recipe exists, a non-zero pump id names an existing pump and that pump is not yet in the recipe; the name defaults to the pump's, the ratio to 1.0; a refusal changes nothing |
| Recipes.AddPartKeepsConsistent | app/controllers/recipes.py:140-160 | after an add no recipe lists one pump twice and every component belongs to a stored recipe |
| Recipes.EditPartRules | app/controllers/recipes.py:168-184 | an edit succeeds iff the component exists and the ratio is given and positive; only that component's name and ratio change |
| Recipes.AddAcceptsWhatEditRefuses | app/controllers/recipes.py:127-177 | a ratio of zero or less is stored by add_component and refused by edit_component on the same component |
| Recipes.ActiveRecipe | app/controllers/recipes.py:106-107 | the active-recipe reference is unset exactly when the setting is absent or falsy |
| Recipes.DeleteRecipeRules | app/controllers/recipes.py:103-114 | a delete succeeds iff the recipe exists and is not the readable active one; it removes exactly that recipe and its components; a refusal changes nothing |
| Recipes.DeleteKeepsActive | app/controllers/recipes.py:106-109 | a delete never removes the recipe the active setting names |
| Recipes.SetActiveRules | app/controllers/recipes.py:206-214 | a recipe is chosen iff it exists and has components; the setting then names it and nothing else changes |
| Recipes.ChosenRecipeIsKept | app/controllers/recipes.py:106-214 | once a recipe is chosen, deleting it is refused and the tables are unchanged |
| Recipes.RecipeBook.constructor | app/controllers/recipes.py:29-31 | the tables start empty and consistent |
| Recipes.RecipeBook.AddRecipe | app/controllers/recipes.py:30-54 | outcome and tables follow `AddRecipeSpec`; consistency is kept |
| Recipes.RecipeBook.AddComponent | app/controllers/recipes.py:120-163 | outcome and tables follow `AddPartSpec` against the pumps table; consistency is kept |
| Recipes.RecipeBook.EditComponent | app/controllers/recipes.py:166-187 | outcome and tables follow `EditPartSpec`; consistency is kept |
| Recipes.RecipeBook.DeleteRecipe | app/controllers/recipes.py:101-117 | outcome and tables follow `DeleteRecipeSpec` on the stored settings; consistency is kept |
| Recipes.RecipeBook.SetActiveRecipe | app/controllers/recipes.py:204-214 | the outcome and settings follow `SetActiveSpec`; profiles and incompatibilities are untouched |
| SensorPages.Bound | app/controllers/sensors.py:190-195 | an absent bound cannot be compared; a numeric one is that number |
| SensorPages.StatusRules | app/controllers/sensors.py:28-49 | no reading is Normal; Low iff below the minimum; High iff not below the minimum and above the maximum; Normal iff within both bounds |
| SensorPages.StatusAgreesWithRangeCheck | app/controllers/sensors.py:200-212 | the page status and the range check raise on the same inputs, and a reading is out of range iff its status is Low or High |
| SensorPages.CheckRangesRules | app/controllers/sensors.py:181-227 | a reply lists exactly the sensors outside their range, in the order pH, EC, Temperature, and its message names them or says all are in range |
| SensorPages.CheckRangesFailsOnlyOnBadBounds | app/controllers/sensors.py:200-223 | with numeric bounds for all three sensors the request always replies |
| SensorPages.InRangeSendsNothing | app/controllers/sensors.py:200-223 | with every reading in range nothing is sent and the reply says all readings are within range |
| SensorPages.CheckRanges | app/controllers/sensors.py:181-227 | the reply and the messages sent follow `CheckRangesSpec` |
| SensorPages.Verdict | app/controllers/sensors.py:130-140 | the page reports success iff the sensor client returned without error |
| SensorPages.CalibratePhSensor | app/controllers/sensors.py:125-141 | a missing point is refused without touching the sensor; otherwise the sensor state and reply follow the client's pH calibration |
| SensorPages.CalibrateEcSensor | app/controllers/sensors.py:144-160 | a missing point is refused without touching the sensor; otherwise the sensor state and reply follow the client's EC calibration |
| SensorPages.CalibrateTempSensor | app/controllers/sensors.py:163-178 | a missing value is refused and a non-numeric one fails, both without touching the sensor; otherwise the state and reply follow the client's temperature calibration |
| Notifications.Setting | app/utils/notification_manager.py:75-101 | the stored value when present, the default otherwise |
| Notifications.LevelFilter | app/utils/notification_manager.py:75-80 | level 'critical' passes only critical messages, 'warning' passes warnings and critical ones, any other level passes all |
| Notifications.NotificationRules | app/utils/notification_manager.py:62-175 | a notification counts as sent iff it passes the level filter and a wanted, configured channel delivers; it tries at most one e-mail and then at most one SMS, and nothing below the level |
| Notifications.SendNotification | app/utils/notification_manager.py:62-108 | the sent flag and the messages tried follow `Notification` |
| Notifications.SwitchesGateAlerts | app/utils/notification_manager.py:23-29 | with the global or the sensor's switch off nothing is formatted or sent |
| Notifications.AlertsAreWarnings | app/utils/notification_manager.py:23-60 | an alert that goes out is a warning-level notification titled after the sensor |
| Notifications.PhAlertSubject | app/utils/notification_manager.py:54-60 | the pH alert is titled "Alert: PH out of range" |
| Notifications.WarningsSkipSmsByDefault | app/utils/notification_manager.py:96-100 | with the default SMS frequency a warning is sent by e-mail only |
| Network.Quality | app/controllers/settings.py:778-783 | the signal quality is a percentage between 0 and 100 |
| Network.QualityScale | app/controllers/settings.py:781 | -100 dBm or weaker is 0 %, -50 dBm or stronger is 100 %, linear in between, and a stronger signal never scores lower |
| Network.Scanned | app/controllers/settings.py:771-788 | every scanned entry has a non-empty name and a quality between 0 and 100 |
| Network.InsertMembers | app/controllers/settings.py:798 | inserting into the sorted list adds only the inserted entry |
| Network.InsertDescending | app/controllers/settings.py:798 | inserting into a strongest-first list keeps it strongest-first |
| Network.SortPermutes | app/controllers/settings.py:798 | the sort keeps every entry, as many times as it occurs |
| Network.SortDescending | app/controllers/settings.py:798 | the sort puts the strongest signal first |
| Network.DedupedSsids | app/controllers/settings.py:801-808 | dropping repeated names keeps every name |
| Network.DedupedMembers | app/controllers/settings.py:801-808 | every kept entry comes from the list |
| Network.DedupedDistinct | app/controllers/settings.py:801-808 | no name is kept twice |
| Network.DedupedDescending | app/controllers/settings.py:801-808 | dropping entries keeps a strongest-first list strongest-first |
| Network.DedupedKeepsStrongest | app/controllers/settings.py:798-808 | in a strongest-first list the entry kept for a name is its strongest |
| Network.DedupeNetworks | app/controllers/settings.py:801-808 | the loop with its seen set returns `Deduped` of its input |
| Network.SortedDedupedRules | app/controllers/settings.py:797-808 | sorting then deduplicating gives a strongest-first list with each name once, every name at its strongest, and nothing added |
| Network.ScanListRules | app/controllers/settings.py:761-808 | the scan list shown is strongest first, has each scanned name once at its strongest, and holds nothing that was not scanned |
| Network.ScanWifiNetworks | app/controllers/settings.py:761-808 | the method's list is `ScanResult`: the scanned cells on a Pi, the three mock networks elsewhere, sorted then deduplicated |
| Network.LeadingOnesValue | app/controllers/settings.py:734 | a prefix of b set bits in a w-bit field has the value 2^w - 2^(w-b) |
| Network.LeadingOnesBits | app/controllers/settings.py:734 | that value has exactly b one bits |
| Network.PrefixOfNumbers | app/controllers/settings.py:734 | the prefix length of a dotted text of numbers is the total of their one bits |
| Network.PrefixOfContiguousMask | app/controllers/settings.py:734 | the prefix length of the dotted mask of a p-bit prefix is p |
| Network.PrefixOfOctetsBounded | app/controllers/settings.py:734 | a dotted text of octets has a prefix length of at most eight per octet |
| Network.TrailingNewlinePasses | app/controllers/settings.py:402 | every valid hostname followed by a newline passes the check as written, though it is not a valid hostname |
| Network.CorrectedCheckIsStricter | app/controllers/settings.py:402 | every valid hostname passes as written; the only extra texts passing as written are a valid hostname plus one trailing newline; a valid hostname has no newline, space or dot |
| Network.UpdateHostname | app/controllers/settings.py:400-414 | a valid hostname is saved to the settings and the reply reports the system update; anything else leaves the settings alone and is refused |
| Migrations.Classify | migrate_nutrient_types.py:37-46 | the guessed type is one of calmag, micro, grow, bloom, other |
| Migrations.ClassifyRules | migrate_nutrient_types.py:37-46 | each type is chosen exactly when its name test holds and no earlier test does |
| Migrations.RedundantTests | migrate_nutrient_types.py:37-41 | the 'calmag' and 'grow' alternatives never decide anything: calmag iff the name holds 'cal' and 'mag', grow-like iff it holds 'gro' or 'veg' |
| Migrations.CalimagicIsCalMag | migrate_nutrient_types.py:37-38 | "CALiMAGic" is typed calmag |
| Migrations.FloraGroIsGrow | migrate_nutrient_types.py:41-42 | "Flora Gro" is typed grow |
| Migrations.FloraMicroIsMicro | migrate_nutrient_types.py:39-40 | "Flora Micro" is typed micro |
| Migrations.PhUpIsOther | migrate_nutrient_types.py:45-46 | "pH Up" matches no test and is typed other |
| Migrations.TypeAll | migrate_nutrient_types.py:29-48 | the first script keeps the number of products |
| Migrations.Untyped | migrate_nutrient_types.py:33-48 | the count of untyped products is at most the number of products |
| Migrations.TypeAllRules | migrate_nutrient_types.py:29-48 | afterwards every product has a type; a type it had is kept, a new one is the type of its name; names are untouched |
| Migrations.TypeAllIdempotent | migrate_nutrient_types.py:29-55 | applying the script again changes nothing and counts no update |
| Migrations.MigrateNutrientTypes | migrate_nutrient_types.py:4-55 | an empty table is reported as such before any column is read; a non-empty table whose first product's type cannot be read is left untouched; otherwise the rows become `TypeAll` of the old rows, the count is the number untyped before, and the session is committed iff that count is positive |
| Migrations.Retyped | migrate_db_nutrient_type.py:46-69 | the second script keeps the number of rows |
| Migrations.RetypedRules | migrate_db_nutrient_type.py:50-68 | afterwards each row carries the type of its name, whatever it had, and names are untouched |
| Migrations.ScriptsAgreeOnUntyped | migrate_db_nutrient_type.py:50-69 | on products without a type the two scripts give the same rows, and the first counts every row |
| Migrations.MigrateDb | migrate_db_nutrient_type.py:31-75 | with the column present nothing changes; otherwise the column is added, every row becomes `Retyped` of the old rows and the count is the number of rows |

## Left out

- Flask plumbing is not modelled: routing, form and JSON parsing, `flash`, `redirect`, templates and HTTP status codes. Each handler's decision is an outcome value.
- The SQLAlchemy session is not modelled: tables are maps or sequences, and a commit is the state change. An exception aborting a request keeps the writes made before it.
- The JSON encoding in `Settings.get`/`Settings.set` is not modelled: a stored value is a number, a flag or a text. A text that would decode as JSON (an id such as "123" comes back as a number) is not distinguished.
- A stored value does not separate an absent key from a JSON null: both are `None`. This affects the weekly `ec_setpoint`, the field-by-field override of the edit form (app/controllers/dosing.py:347-357), the `get` reads with a default in `activate_profile` (app/controllers/garden.py:477-480) and the grow-cycle page (app/controllers/garden.py:709), and the `is None` test of the defaults (app/models/settings.py:208). Where the source would keep, store or iterate a null, the model takes the path of an absent key.
- Garden.GrowCycle: a component carries no `weekly_schedule_applied` key. No code in the repository writes it, so a page view treats every listed component as out of date. A hand-edited store that sets it to the current week would skip the reconfiguration the model performs.
- PumpApi.NutrientTypeRules: the `NutrientProduct` model (app/models/nutrient.py:87-96) declares no `nutrient_type` column. The model treats the column as mapped, as the migrations add it to the table. As written, the create at app/controllers/api.py:1024-1032 raises a TypeError (HTTP 500) for every type that passes the validation.
- Migrations.MigrateNutrientTypes: for the same reason, reading `nutrient_type` on a loaded product raises an AttributeError on a non-empty table; the model's `columnPresent` input stands for that read succeeding.
- The table creation and brand seeding of migrate_db_nutrient_type.py:18-29 are not modelled; that script adds the column only. With no `nutrient_products` table its ALTER fails, which the model does not represent.
- Recipes.ActiveRecipe: a stored text is never read as a recipe id. Python's `int()` would accept texts such as "+12", " 7 " or "012". The settings code only ever stores an integer there.
- Floating point is modelled on exact reals. `round(x, 2)` is round-half-even on reals. `float()` accepts the decimal subset (sign, digits, one point) and refuses exponents, `inf`, `nan` and underscores.
- Case mapping and byte decoding cover ASCII only: a byte of 0x80 or more fails to decode.
- GPIO and I2C hardware are modelled as a pin-level map and byte queues per address. The `time.sleep` settle delays, the lock around `activate_pump` and the APScheduler jobs (`schedule_readings`, the 300 s interval) are not modelled. An activation is atomic.
- The pin setup and cleanup of `init_dosing` are not modelled beyond the one-pin helpers.
- The real-time emit imports `socketio` from the application package, which binds it only as a local. It is modelled as an outcome flag that may raise; the enclosing `except` decides the result.
- `subprocess`, `iwlist` output parsing, `inet_aton` and the other operating-system calls are not modelled. The parsed scan cells, the hostname command's success and the column check are inputs.
- SMTP and Twilio are not modelled: whether a reachable server accepts the message is the `Transport` parameter.
- Dictionary iteration order (profiles, scan cells) is a parameter `order`. The uuid suffix of a new profile id and the timestamps stamped on rows are parameters.
- Network.SortDescending: the in-place `list.sort` is modelled on sequences by an insertion sort. It keeps ties in scan order as Python's stable sort does, but no lemma states that stability; the lemmas state order and permutation.
- Notifications.NotificationRules: the SMS body is `subject: message` in the source. The model keeps the subject and the body apart in the `Sms` attempt.
- SensorPages.CalibrateTempSensor: the command carries Python's text of the parsed float, which the model takes as the parameter `rendered`.
- DosingPages.DosingSettings: the rescheduling of dosing checks after the settings are saved is not modelled.
- Pages that only render (the index pages, `edit_recipe`'s form) and `delete_component` are not part of the modelled core.
- Calls in the repository whose keywords the definitions lack are not modelled. These are `initialize_defaults(force_reset=True)` and `auto_configure_nutrient_components(forced=True)`; Python raises on them.

## Findings

| source | as written | input that shows it | evidently intended | confidence | as-written member | corrected member |
|---|---|---|---|---|---|---|
| app/models/pump.py:71 | the session autoflushes the staged pH pumps before `Pump.query.count()`, so the count is never 0 on an empty table; after that flush `db.session.new` is empty, so nothing is committed | an empty pumps table | an empty table receives the two pH pumps and the three nutrient pumps, and the new rows are committed | not executed | PumpModel.DefaultsAsWrittenOnEmptyTable | PumpModel.PumpTable.InitializeDefaults |
| app/controllers/settings.py:402 | `re.match(r'^[a-zA-Z0-9-]+$', hostname)`: `$` also matches before a final newline | the hostname "pi\n" | only letters, digits and hyphens are accepted | not executed | Network.TrailingNewlinePasses | Network.UpdateHostname |
