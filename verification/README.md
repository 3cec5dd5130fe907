# Audiometry — a Dafny model of the hearing-assessment core

Audiometry is a macOS application for recording pure-tone audiograms. For
each patient it stores a name, age and job, plus hearing levels in dB HL
for each ear at 500, 1000, 2000, 4000 and 8000 Hz. All of these are kept
as the text the user typed. From the levels it computes these figures:

- the mean loss per ear;
- the bilateral loss, which is the mean of the two ear means;
- the SAL index, the mean of the three speech frequencies;
- the ELI index, a weighted sum with weights 0.15, 0.25, 0.25, 0.25 and 0.10.

Each figure is graded into one of six bands, from Normal to Profound.

This project models:

- **`Bands`, `Calculations`** (`calculations.dfy`): the stand-alone calculator. Its classifier switches on a one-sided range `...25` followed by closed ranges with whole-number bounds (`26...40`, …). So averages strictly between 25 and 26, 40 and 41, 55 and 56, or 70 and 71 fall through to Profound. Short inputs give the sentinel value 0.0 with the label "No data" or "Insufficient data".
- **`InlineCalculations`** (`inline_calculations.dfy`): the copy of the calculator written out inside the form view and the print view. The two copies are identical apart from the signature of the bilateral function, so they are modelled once. The form's `calculateBilateralHearingLoss()` takes no arguments and reads the form's ear getters; the print view's takes `(right:left:)`. `ContentView.BilateralHearingLoss` connects the two. This copy has no guards and uses a gap-free `<=` ladder. An empty input gives `0/0`, which is NaN. NaN fails every `<=` test, so it is graded Profound. A Swift `Double` is therefore modelled as `Finite(real) | NaN`.
- **`PatientRecord`, `CoreDataPatient`** (`records.dfy`): the `PatientData` record and the Core Data `Patient` entity. This covers creation, the modification timestamp, and the ear getters, which read unparseable text as 0.
- **`NameOrder`, `PatientStore`** (`name_order.dfy`, `patient_store.dfy`): the in-memory `PatientDataStore`. The application carries two copies of this class. Their fetch, add, update, delete and search methods are the same line for line; only the copy under `Model/` also installs a bundled sample file when it loads. The model covers fetch sorted by name, add, update by first matching id, delete of every record with an id, and case-insensitive substring search.
- **`ContentView`** (`content_view.dfy`): the form. It loads a record into the thirteen fields, writes the fields back, clears the form, reads the ear vectors from the fields, computes the bilateral figure, and force-saves.
- **`PrintReport`** (`print_report.dfy`): the printed report. It covers the frequency table cells, the figures, and the dividers between consecutive reports.
- **`Navigation`, `CoreDataNavigation`** (`navigation.dfy`, `navigation_core_data.dfy`): the two navigation bars. They provide the position of the current patient, previous/next, the "k / n" label and the search action. The Core Data bar's search first reselects a neighbouring patient. It reads the list at position -1 when the list is empty. When the list holds one patient and that patient is the current one, it reads position 1. Both reads are outside the list and trap. A lone patient that is not the current one leads to no read and no selection. The model makes the trap an explicit outcome.

Modelling conventions:

- Hearing levels are `real`.
- Parsing (`Double(String)`), trimming and lowercasing are function parameters.
- Ids and timestamps are integers supplied by the caller.
- Object identity in Core Data is record equality.
- Swift's `String <` is lexicographic order on characters.

These facts about the code shape the model:

- The stand-alone calculator returns sentinel values rather than raising errors.
- The ranges of its classifier leave gaps.
- The inline copies divide by zero on empty input and produce NaN.
- Both navigation bars take an `onForceSave` callback. The form passes its own `forceSavePendingChanges` as that callback (Audiometry/Views/ContentView.swift:45-51), so the model takes the SwiftUI bar's `onForceSave` to be that function (`ContentView.ForceSavePendingChanges`).

## Model

| member | source | states |
|---|---|---|
| Basics.FirstIndexOf | Audiometry/PatientNavigationView.swift:35 | `firstIndex(of:)`: None exactly when the element is absent; otherwise a position holding it with no earlier occurrence |
| Basics.ContainsIsWindow | Audiometry/Model/PatientDataStore.swift:128 | the substring test used by search holds exactly when some window of the text equals the query |
| Bands.Rank | Audiometry/Model/AudiometryCalculations.swift:30-45 | the six bands are ordered Normal (0) to Profound (5) |
| Calculations.ClassifyHearingLoss | Audiometry/Model/AudiometryCalculations.swift:30-45 | one iff per band: Normal for at most 25, Mild on [26,40], Moderate on [41,55], Moderate-Severe on [56,70], Severe on [71,90], Profound above 90 or inside a gap between ranges |
| Calculations.GapValuesAreProfound | Audiometry/Model/AudiometryCalculations.swift:32-43 | 25.5, 40.5, 55.5 and 70.5 are graded Profound while the boundary values below them are not; 25.5 grades worse than 90 |
| Calculations.CalculateHearingLoss | Audiometry/Model/AudiometryCalculations.swift:18-25 | empty input gives exactly the "No data" sentinel with value 0; otherwise the value times the count is the sum of the inputs, graded by the classifier |
| Calculations.MeanWithin | Audiometry/Model/AudiometryCalculations.swift:21 | the mean of values lying in [lo, hi] lies in [lo, hi] |
| Calculations.MeanOfConstant | Audiometry/Model/AudiometryCalculations.swift:21 | the mean of a constant profile is that constant |
| Calculations.CalculateSAL | Audiometry/Model/AudiometryCalculations.swift:52-61 | fewer than three values exactly give "Insufficient data" with value 0; otherwise three times the value is the sum of the first three, graded by the classifier |
| Calculations.SalIgnoresHighFrequencies | Audiometry/Model/AudiometryCalculations.swift:56 | two profiles that agree on their first three values have the same SAL |
| Calculations.SalIsSpeechMean | Audiometry/Model/AudiometryCalculations.swift:56-58 | SAL equals the mean hearing loss of the first three frequencies |
| Calculations.AccumulateWeightedSum | Audiometry/Model/AudiometryCalculations.swift:74-79 | the enumerated loop computes the weighted sum; for five or more values it is 0.15·f0 + 0.25·f1 + 0.25·f2 + 0.25·f3 + 0.10·f4 |
| Calculations.WeightedSumStopsAtFive | Audiometry/Model/AudiometryCalculations.swift:76 | values beyond the fifth contribute nothing to the weighted sum |
| Calculations.WeightedSumOfFive | Audiometry/Model/AudiometryCalculations.swift:72-79 | the weighted sum of five or more values is the closed form over the first five |
| Calculations.CalculateELI | Audiometry/Model/AudiometryCalculations.swift:68-83 | fewer than five values exactly give "Insufficient data" with value 0; otherwise the value is the weighted closed form, graded by the classifier |
| Calculations.EliWithin | Audiometry/Model/AudiometryCalculations.swift:72-79 | when the first five values lie in [lo, hi], so does the ELI |
| Calculations.WeightsSumToOne | Audiometry/Model/AudiometryCalculations.swift:72 | there are five weights and they sum to 1 |
| Calculations.CalculateBilateralHearingLoss | Audiometry/Model/AudiometryCalculations.swift:92-100 | twice the value is the sum of the two per-ear means, graded by the classifier |
| Calculations.BilateralIsNotPooledMean | Audiometry/Model/AudiometryCalculations.swift:93-96 | the bilateral value is a mean of means: ears [0] and [60,60,60] give 30, while pooling gives 45 |
| Calculations.BilateralWithMissingEar | Audiometry/Model/AudiometryCalculations.swift:19 | an empty ear counts as 0, so the bilateral value is half the other ear's mean |
| Calculations.IsValidHearingLevel | Audiometry/Model/AudiometryCalculations.swift:114-116 | a level is valid exactly on [0, 120]; `Calculations.ValidInputsGiveValidIndices` shows the figures keep validity |
| Calculations.ValidInputsGiveValidIndices | Audiometry/Model/AudiometryCalculations.swift:114-116 | if every input level is valid, so are the mean, SAL and ELI |
| Calculations.DebugVectors | Audiometry/Model/AudiometryCalculations.swift:125-151 | the debug vectors give 18.0 Normal, 40.0 Mild, SAL 15.0 Normal, ELI 39.5 Mild and bilateral 29.0 Mild |
| InlineCalculations.MeanOf | Audiometry/Views/ContentView.swift:366 | the unguarded mean is NaN exactly on empty input; otherwise the value times the count is the sum |
| InlineCalculations.MidPoint | Audiometry/Views/ContentView.swift:390 | half the sum; NaN exactly when either operand is NaN |
| InlineCalculations.Ladder | Audiometry/Views/ContentView.swift:419-433 | one iff per band over the half-open intervals (25,40], (40,55], (55,70], (70,90]; at most 25 Normal, above 90 Profound |
| InlineCalculations.LadderOf | Audiometry/PrintReportViewSwiftUI.swift:268-282 | NaN is graded Profound; a finite value gets the calculator's band exactly when it lies outside the calculator's gaps |
| InlineCalculations.LadderMonotone | Audiometry/Views/ContentView.swift:456-470 | a larger value never gets a milder band |
| InlineCalculations.LadderCoversEveryBand | Audiometry/Views/ContentView.swift:456-470 | every band is reached by some value |
| InlineCalculations.LadderAgreesOutsideGaps | Audiometry/Views/ContentView.swift:368-380 | the view ladder and the stand-alone classifier give the same band exactly when the value is outside the gaps |
| InlineCalculations.GapDisagreement | Audiometry/PrintReportViewSwiftUI.swift:223-235 | at 25.5, 40.5, 55.5 and 70.5 the view ladder gives Mild, Moderate, Moderate-Severe and Severe, where the calculator gives Profound |
| InlineCalculations.HearingLoss | Audiometry/PrintReportViewSwiftUI.swift:220-236 | empty input gives NaN graded Profound; otherwise the calculator's mean with the ladder's band |
| InlineCalculations.BilateralHearingLoss | Audiometry/PrintReportViewSwiftUI.swift:238-256 | with both ears non-empty, the calculator's bilateral value; with either ear empty, NaN; always graded by the ladder |
| InlineCalculations.SalValue | Audiometry/Views/ContentView.swift:413-417 | with at least three values, the calculator's SAL; with one or two, their plain mean (no "Insufficient data"); with none, NaN |
| InlineCalculations.SalReading | Audiometry/PrintReportViewSwiftUI.swift:258-282 | from three values, the reading always shows the calculator's SAL value, with the calculator's label exactly when that value lies outside the gaps; with one or two values it shows their plain mean where the calculator reports Insufficient data; empty input reads NaN, graded Profound |
| InlineCalculations.EliValue | Audiometry/Views/ContentView.swift:441-454 | with at least five values, the calculator's ELI; with fewer, the ELI of the profile padded with zeros to five (no sentinel) |
| InlineCalculations.ShortProfileIsPadded | Audiometry/PrintReportViewSwiftUI.swift:289-300 | a short profile is weighed exactly like its zero-padded five-value version |
| InlineCalculations.EliReading | Audiometry/PrintReportViewSwiftUI.swift:284-316 | from five values, the reading always shows the calculator's ELI value, with the calculator's label exactly when that value lies outside the gaps; a shorter profile is read as if zero-padded to five, where the calculator reports Insufficient data; the value is always finite |
| InlineCalculations.InlineMatchesCalculator | Audiometry/Views/ContentView.swift:365-470 | on five-value profiles, the mean, SAL and ELI shown by the views always equal the calculator's values, and each band is the calculator's label exactly when the value is outside the gaps |
| InlineCalculations.InlineBilateralMatchesCalculator | Audiometry/PrintReportViewSwiftUI.swift:238-256 | for two non-empty ears the bilateral figure always shows the calculator's value, with its label exactly outside the gaps |
| InlineCalculations.AssessmentMatchesCalculator | Audiometry/PrintReportViewSwiftUI.swift:167-187 | for two five-value ears, each of the seven displayed figures shows the calculator's value, and the calculator's label exactly when that value is outside the gaps |
| PatientRecord.Init | Audiometry/PatientData.swift:32-49 | a new record has the given id and every text field empty; its two timestamps are two separate clock readings, and nothing relates them |
| PatientRecord.UpdateModifiedDate | Audiometry/PatientData.swift:51-53 | only the modification time changes |
| PatientRecord.RightEarValues | Audiometry/PatientData.swift:56-64 | five values; position i is the parse-or-zero of the i-th right-ear field, 500 Hz first |
| PatientRecord.LeftEarValues | Audiometry/PatientData.swift:66-74 | the same for the left ear |
| PatientRecord.EarsAreIndependent | Audiometry/Model/Patient.swift:63-81 | each ear's vector depends only on that ear's fields |
| PatientRecord.BlankReadsAsZero | Audiometry/PatientData.swift:58 | in either ear, leaving any one field empty reads the same as typing 0 into it |
| PatientRecord.FreshRecordIsSilent | Audiometry/PatientData.swift:32-49 | a new record reads as all zeros in both ears |
| CoreDataPatient.Create | Audiometry/Model/Patient.swift:37-56 | the new entity is exactly the record that `PatientData(id:)` builds from the same id and clock readings: the given id, both readings, every text field empty |
| CoreDataPatient.FreshPatientIsSilent | Audiometry/Model/Patient.swift:37-81 | a new entity reads as all zeros in both ears |
| NameOrder.NameLessIrreflexive | Audiometry/Model/PatientDataStore.swift:101 | no name sorts before itself |
| NameOrder.NameLessTransitive | Audiometry/Model/PatientDataStore.swift:101 | the name order is transitive |
| NameOrder.NameLessTotal | Audiometry/Model/PatientDataStore.swift:101 | of two distinct names, one sorts first |
| NameOrder.InsertByName | Audiometry/Model/PatientDataStore.swift:101 | inserting into a sorted list gives a sorted list holding one more copy of the record |
| NameOrder.SortByName | Audiometry/Model/PatientDataStore.swift:101 | the result is sorted by name and is a permutation of the input |
| PatientStore.IndexOfId | Audiometry/Model/PatientDataStore.swift:110 | `firstIndex(where:)` by id: None exactly when no record has the id; otherwise a matching position with no earlier match |
| PatientStore.FetchPatients | Audiometry/Model/PatientDataStore.swift:99-102 | a permutation of the stored records sorted by name |
| PatientStore.AddPatient | Audiometry/Model/PatientDataStore.swift:104-107 | the old records unchanged, followed by the new one |
| PatientStore.UpdatePatient | Audiometry/Model/PatientDataStore.swift:109-114 | the length is unchanged; with no matching id nothing changes; otherwise the first record with the id is replaced and every other position is kept |
| PatientStore.UpdateIdempotent | Audiometry/PatientDataStore.swift:84-89 | updating twice with the same record equals updating once |
| PatientStore.RemoveAllWithId | Audiometry/Model/PatientDataStore.swift:117 | no survivor has the id, every survivor was stored, and each other record keeps its multiplicity |
| PatientStore.DeletePatient | Audiometry/Model/PatientDataStore.swift:116-119 | no record with the patient's id remains, and records with other ids keep their multiplicity |
| PatientStore.RemoveDistributes | Audiometry/PatientDataStore.swift:92 | removal works on each part of the list separately, so the survivors keep their order |
| PatientStore.DeleteIdempotent | Audiometry/PatientDataStore.swift:91-94 | deleting twice equals deleting once |
| PatientStore.AddThenDeleteRestores | Audiometry/Model/PatientDataStore.swift:104-119 | adding a record with a fresh id and then deleting it restores the store |
| PatientStore.Matching | Audiometry/Model/PatientDataStore.swift:127-129 | each record appears as often as it is stored if its lowercased name contains the query, and otherwise not at all |
| PatientStore.SearchPatients | Audiometry/Model/PatientDataStore.swift:121-130 | a blank trimmed, lowercased query returns the fetch result; any other returns, sorted by name, exactly the matching records with their multiplicity |
| PatientStore.SearchIsExact | Audiometry/PatientDataStore.swift:96-105 | for a non-blank query, a record is found exactly when it is stored and its lowercased name contains the query |
| ContentView.ClearForm | Audiometry/Views/ContentView.swift:314-328 | every field is empty |
| ContentView.LoadPatient | Audiometry/Views/ContentView.swift:250-268 | the form's fields are the record's text fields, in order |
| ContentView.UpdateCurrentPatient | Audiometry/Views/ContentView.swift:270-288 | without a current patient nothing happens; otherwise the patient gets the form's fields and the new modification time, and keeps its id and creation time |
| ContentView.LoadThenUpdateRoundTrip | Audiometry/Views/ContentView.swift:250-288 | writing back an untouched loaded form changes only the modification time |
| ContentView.UpdateThenLoadRoundTrip | Audiometry/Views/ContentView.swift:250-288 | loading a patient after writing a form into it gives back that form |
| ContentView.RightEarValues | Audiometry/Views/ContentView.swift:331-339 | five values, each the parse-or-zero of the matching right-ear field |
| ContentView.LeftEarValues | Audiometry/Views/ContentView.swift:341-349 | the same for the left ear |
| ContentView.LoadedFormReadsLikeRecord | Audiometry/Views/ContentView.swift:331-349 | after loading a record, the form's vectors are the record getters' vectors |
| ContentView.ClearedFormIsSilent | Audiometry/Views/ContentView.swift:314-349 | a cleared form reads as all zeros in both ears |
| ContentView.ForceSavePendingChanges | Audiometry/Views/ContentView.swift:304-312 | without a current patient the store is untouched; with one, the store is `updatePatient` of it: same size, and the patient is stored when its id was present |
| ContentView.BilateralHearingLoss | Audiometry/Views/ContentView.swift:384-405 | the form's bilateral figure is always finite, equals the calculator's bilateral value, and is graded by the ladder |
| PrintReport.CellText | Audiometry/PrintReportViewSwiftUI.swift:211-213 | an empty value shows "-"; any other shows the value followed by " dB" |
| PrintReport.CellTextInjective | Audiometry/PrintReportViewSwiftUI.swift:211-213 | different values give different cells |
| PrintReport.FrequencyTable | Audiometry/PrintReportViewSwiftUI.swift:148-152 | five rows labelled 500 to 8000; row i shows the i-th field of each ear |
| PrintReport.ReportMatchesScreenAndCalculator | Audiometry/PrintReportViewSwiftUI.swift:167-187 | the printed figures equal those the form shows for the loaded patient; each of the seven (two ear means, bilateral, SAL and ELI per ear) shows the calculator's value, with the calculator's label exactly when that value is outside the gaps |
| PrintReport.LayoutFromCounts | Audiometry/PrintReportViewSwiftUI.swift:30-37 | each patient is reported once, in order; the divider count is the number of patients whose id differs from `lastId`; every divider directly follows a report whose id differs from `lastId`, and every such report is directly followed by a divider |
| PrintReport.Layout | Audiometry/PrintReportViewSwiftUI.swift:30-37 | each patient is reported once, in order; the last item is the last patient's report; the divider count is the number of patients minus the occurrences of the last id; every divider directly follows a report whose id differs from the last patient's, and every such report is directly followed by a divider |
| PrintReport.LayoutShape | Audiometry/PrintReportViewSwiftUI.swift:30-37 | with distinct ids, n patients give exactly n-1 dividers |
| Navigation.CurrentIndex | Audiometry/Model/PatientNavigationViewSwiftUI.swift:28-31 | -1 exactly when nothing is selected or no record has the current id; otherwise the first position with that id |
| Navigation.Previous | Audiometry/Model/PatientNavigationViewSwiftUI.swift:130-135 | a selection exactly when `hasPrevious`, namely the record before the current position |
| Navigation.HasPrevious | Audiometry/Model/PatientNavigationViewSwiftUI.swift:33-35 | true exactly when the current patient's id is listed and the first record does not carry it |
| Navigation.HasNext | Audiometry/Model/PatientNavigationViewSwiftUI.swift:37-39 | true exactly when the current patient's id occurs before the last position |
| Navigation.Next | Audiometry/Model/PatientNavigationViewSwiftUI.swift:142-147 | a selection exactly when `hasNext`, namely the record after the current position |
| Navigation.PositionLabel | Audiometry/Model/PatientNavigationViewSwiftUI.swift:139 | a one-based position from 0 to n out of n; 0 exactly when no listed patient is selected; otherwise it points at the current id |
| Navigation.ButtonsEnabled | Audiometry/Model/PatientNavigationViewSwiftUI.swift:33-39 | with nothing selected or at most one record, both buttons are disabled; with two or more records and a listed selection, at least one is enabled; both enabled needs three records |
| Navigation.NextThenPrevious | Audiometry/Model/PatientNavigationViewSwiftUI.swift:130-147 | with distinct ids, next moves one position up and previous returns to the start |
| Navigation.PreviousThenNext | Audiometry/Model/PatientNavigationViewSwiftUI.swift:130-147 | with distinct ids, previous moves one position down and next returns to the start |
| Navigation.SharedIdStallsNext | Audiometry/Model/PatientNavigationViewSwiftUI.swift:28-39 | two records sharing an id make next select the second record and then stay on it |
| Navigation.PerformSearch | Audiometry/Model/PatientNavigationViewSwiftUI.swift:179-189 | a blank trimmed text is ignored; otherwise the store is the one the force-save leaves (unchanged without a current patient, else `updatePatient` of it); a blank query lists the whole saved store sorted; any other query lists, sorted by name, exactly the saved records whose lowercased name contains it, each as often as it is stored |
| Navigation.SearchSeesPendingEdits | Audiometry/Model/PatientNavigationViewSwiftUI.swift:184-187 | when the current patient's edited name matches the query, the edited record is among the results |
| CoreDataNavigation.CurrentIndex | Audiometry/PatientNavigationView.swift:33-36 | -1 exactly when nothing is selected or the patient is not listed; otherwise the first position holding it |
| CoreDataNavigation.HasPreviousIsPositiveIndex | Audiometry/PatientNavigationView.swift:38-40 | the emptiness test in `hasPrevious` is redundant |
| CoreDataNavigation.Previous | Audiometry/PatientNavigationView.swift:133-138 | a selection exactly when `hasPrevious`, namely the record before the current one |
| CoreDataNavigation.HasPrevious | Audiometry/PatientNavigationView.swift:38-40 | true exactly when the current patient is listed and is not the first record |
| CoreDataNavigation.HasNext | Audiometry/PatientNavigationView.swift:42-44 | true exactly when the current patient occurs before the last position |
| CoreDataNavigation.Next | Audiometry/PatientNavigationView.swift:145-150 | a selection exactly when `hasNext`, namely the record after the current one |
| CoreDataNavigation.StepsAreInverse | Audiometry/PatientNavigationView.swift:133-150 | with distinct records, next then previous (and previous then next) return to the current patient |
| CoreDataNavigation.Reselect | Audiometry/PatientNavigationView.swift:195-217 | traps exactly on an empty list or a one-record list whose record is the current patient; never takes the last-position fallback; reads nothing exactly when the list is non-empty and there is no current patient or it is unlisted; any selection is the previous neighbour, or the next one at position 0 |
| CoreDataNavigation.ReselectOutcomes | Audiometry/PatientNavigationView.swift:195-217 | the reselection traps exactly on an empty list (at -1) or a one-record list holding the current patient (at 1); the last-position fallback never runs; otherwise it selects the previous neighbour, else the next, else nothing |
| CoreDataNavigation.FirstFallbackAlwaysTraps | Audiometry/PatientNavigationView.swift:211-213 | the position-0 fallback runs only on a one-record list and always reads out of bounds |
| CoreDataNavigation.PerformSearch | Audiometry/PatientNavigationView.swift:182-223 | a blank trimmed text is ignored; a non-blank one traps exactly on an empty list or a lone current patient; otherwise the search runs with the trimmed text; no patient is reselected exactly when the current patient is absent or unlisted; a reselected patient is listed and is the previous neighbour, or the next one at position 0 |
| CoreDataNavigation.SearchReselectsNeighbour | Audiometry/PatientNavigationView.swift:200-209 | with two or more records and a listed current patient, a search reselects its previous neighbour, or its next one at position 0 |

## Left out

- JSON file loading and saving (`loadPatients`, `savePatients`, and the sample-file copy `copySampleFileIfNeeded` of the `Model/` store), Core Data persistence, and `StorageMode`: I/O. Each store operation returns the new array instead.
- `PersistenceController.searchPatients`, the Core Data fetch used by the Core Data search: the persistence layer is outside the modelled core. `CoreDataNavigation.PerformSearch` stops at the query it would pass.
- Double-parsing, whitespace trimming and lowercasing (`Double(String)`, `trimmingCharacters(in:)`, `lowercased()`): these are function parameters, so their own behaviour is not modelled.
- Floating-point values: levels are exact reals, so rounding is not modelled. `Double(String)` also accepts text such as "nan" or "inf", giving NaN or an infinity; the parser parameter yields only reals, so those values are not modelled. NaN appears only where the inline copies divide by zero.
- Formatting of figures (`String(format: "%.1f dB")`, `formatDB`) and localisation of labels: only the value and the band are modelled.
- The one-second debounced autosave in `updateCurrentPatient`, and the cancellation of pending autosaves: timing and dispatch queues.
- `createNewPatient`, `saveCurrentPatient`, `loadAllPatients`, the language menu, the print sheets and all other view layout: UI wiring around the modelled operations.
- UUID and `Date()` generation: ids and times are passed in as integers.
- Core Data identity (`firstIndex(of:)` on managed objects): modelled as record equality.
- Unicode-aware string comparison and search: names are compared character by character on code points.
- The `onForceSave` callback of the Core Data bar: its effect lies outside that view.
- The documentation snippet of `performSearch` and the debug PNG snippet: neither is application code.
- The sort order among patients with equal names: `sorted` is specified only as a name-sorted permutation.
- The second copy of the store: `PatientStore` models both copies, because Audiometry/PatientDataStore.swift:74-105 is line for line the same as the copy under Model/.
- The `Patient` methods `updateModifiedDate`, `getRightEarValues` and `getLeftEarValues` (Audiometry/Model/Patient.swift:58-81): they are field for field the same as the `PatientData` ones, and the `PatientRecord` functions stand for both.
- The second inline calculator copy: the form view's copy (Audiometry/Views/ContentView.swift:365-470) and the print view's copy are identical apart from the bilateral function's signature, and `InlineCalculations` models both.
