# vital-edge-guard core, modelled in Dafny

This project models the core of the vital-edge-guard patient dashboard, a single-page app that monitors
six simulated patients. The modelled parts are these:

- **Vital signs generator** (`generateMockVitals`): perturbs a baseline sample at random, with defaults for
  absent channels and SpO2 capped at 100.
- **Status classifier** (`classifyPatientStatus`): assigns each sample to one of three tiers using fixed
  thresholds.
- **Anomaly heuristic** (`detectAnomalies`): flags three unusual channel combinations with a 30 % chance.
- **Seeding** (`generateMockPatients`): builds the six-patient roster literal, then classifies each patient
  and back-fills 50 history samples per patient, one minute apart.
- **Dashboard page** (`pages/Index.tsx`):
  - the simulation tick, which regenerates, reclassifies and appends to a history capped at 50;
  - the pause/resume flag;
  - the status counters;
  - the split of the roster into a priority list, sorted, and a stable list.
- **Filter panel** (`PatientFilters.tsx`):
  - a case-insensitive search over name, room and id;
  - the status and room filters;
  - the sorted list of distinct rooms;
  - clearing the filters and detecting active filters.
- **Add/edit dialog** (`PatientFormModal.tsx`): validation, the saved record, and per-field error clearing.
- **Model metrics panel** (`ModelMetricsPanel.tsx`): score colour tiers, the ROC AUC badge label, and
  rounded percentages.
- **Vital chart** (`VitalChart.tsx`): the last 20 points rounded to one decimal, the header value, and the
  vertical axis domain.

Files:

- `health.dfy`: the records (`VitalSigns`, `Patient`, `PatientStatus`).
- `mock_data.dfy`: generator, classifier, anomaly heuristic and seeding.
- `dashboard.dfy`: tick, counters, priority sort and the page state, as class `Monitor`.
- `patient_filters.dfy`: the filter pipeline and class `FilterPanel`.
- `patient_form.dfy`: the dialog logic and class `PatientFormState`.
- `model_metrics.dfy` and `vital_chart.dfy`: the two views.
- `sequences.dfy`, `text.dfy` and `js_math.dfy`: the parts of `Array.prototype`, `String.prototype` and
  `Math.round` the core relies on.
- `wrappers.dfy`: `Option`.

Randomness and the clock are inputs.

- Every `Math.random()` the core consumes is an explicit draw: `VitalDraws` holds four draws for one
  generated sample, `TickDraws` holds one patient's draws for one tick, and `SeedDraws` holds everything the
  seeding consumes.
- A genuine draw lies in [0, 1) (`ValidDraws`).
- Every reading of the clock within one operation is a single instant `now`, in milliseconds.
- React state becomes class fields, and each state setter becomes a method with a `modifies` clause.
- The seeding's `forEach`/`for`/`push` loops are `while` loops over a local roster, each proved equal to a
  specification function (`SeedRoster`).

Three behaviours of the code deserve a note, because a reader of the program could expect otherwise. The
model follows the code in each:

- **Status of an added patient.** Everywhere else a patient's status comes from the classifier; the
  dialog writes `'normal'` for an added patient instead (`PatientFormModal.tsx:77`). `PatientForm.AddStartsNormal` proves
  that the two agree for every genuine draw: a sample generated from the defaults always classifies as
  normal and never matches an anomaly pattern.
- **Anomaly draw.** `detectAnomalies` consumes its random draw only when a pattern matches
  (`mockData.ts:52-56`). The model passes one draw per call and ignores it when no pattern matches. Every
  stream of draws in [0, 1) corresponds to some choice of these inputs, so the set of reachable behaviours is
  the same.
- **Anomaly flag at seeding.** The roster literal's `anomalyDetected: true` for P003 is overwritten by the classifying pass (`mockData.ts:135`).
  `MockData.SeededStatuses` proves that no seeded patient can in fact be flagged, because no pattern is
  reachable from the seeded baselines.

## Model

| member | source | states |
|---|---|---|
| MockData.GenerateMockVitals | src/utils/mockData.ts:4-21 | the sample is stamped `now`, SpO2 never exceeds 100, and with genuine draws each channel lies in its generated range (HR ±5, RR ±2, SpO2 ±1.5 capped at 100, temperature ±1 around the baseline or default) |
| MockData.DefaultsWhenAbsent | src/utils/mockData.ts:5-12 | with no baseline the sample lies around 75 / 16 / 98 / 98.6 within the spans |
| MockData.GenerateReachesWholeRange | src/utils/mockData.ts:14-20 | every sample in the generated range is produced by some genuine draws, so the range is exact |
| MockData.ClassifyPatientStatus | src/utils/mockData.ts:24-44 | critical exactly when one of the seven strict critical triggers fires, warning when only a warning trigger fires, normal exactly when every channel lies in its normal band |
| MockData.CriticalImpliesWarningTrigger | src/utils/mockData.ts:27-43 | every critical trigger is also a warning trigger, and a sample is non-normal exactly when some warning trigger fires |
| MockData.ClassifierBoundaries | src/utils/mockData.ts:28-41 | thresholds are strict: HR 120 and SpO2 90 are warnings, HR 121 and SpO2 89.9 critical, HR 100 / RR 20 / SpO2 95 / temp 100.4 normal |
| MockData.ClassifierMonotone | src/utils/mockData.ts:24-44 | moving channels further out from the middle of their bands never lowers severity |
| MockData.DetectAnomalies | src/utils/mockData.ts:47-59 | the flag is raised only on one of the three patterns, and on a pattern exactly when the draw exceeds 0.7 |
| MockData.AnomalyImpliesNotNormal | src/utils/mockData.ts:24-59 | a flagged sample is never normal; the first pattern (HR > 90, RR < 10) is always critical |
| MockData.InitialRoster | src/utils/mockData.ts:63-130 | the roster literal before the classifying pass; its ids, names, ages and rooms are stated by `SeedIdentities` |
| MockData.SeedPatient | src/utils/mockData.ts:133-142 | the loop body for one patient yields the patient with status and flag derived from its current sample and one back-filled sample per history draw |
| MockData.GenerateMockPatients | src/utils/mockData.ts:62-146 | the in-place classifying and back-filling pass returns the specified seeded roster |
| MockData.SeedIdentities | src/utils/mockData.ts:63-130 | six patients P001–P006 with the literal's names, ages and rooms, all stamped `now` |
| MockData.SeedDerivedFields | src/utils/mockData.ts:133-142 | status and flag come from the current sample; the history holds 50 samples stamped `now - (50-k)` minutes, strictly increasing and all before `now` |
| MockData.SeedCurrentNotInHistory | src/utils/mockData.ts:138-142 | the current sample is not one of the history samples |
| MockData.SeededStatuses | src/utils/mockData.ts:63-135 | with genuine draws P001, P004, P006 are normal, P003 critical, P002 and P005 never critical, and no seeded patient is flagged |
| Dashboard.TickPatient | src/pages/Index.tsx:38-50 | one patient's update in a tick; every field of the result is stated by `TickPatientSpec` |
| Dashboard.TickPatientSpec | src/pages/Index.tsx:38-49 | a tick keeps identity fields, generates from the previous sample, re-derives status and flag, grows the history by one up to 50 ending in the new sample after the newest old entries, and stamps `now` |
| Dashboard.Tick | src/pages/Index.tsx:37-51 | every patient is updated from the same pre-tick snapshot, in roster order, and the roster length is kept |
| Dashboard.TickMakesConsistent | src/pages/Index.tsx:38-49 | after one tick a patient's history ends in its current sample, status and flag are derived from it, and the history grew by one up to the cap |
| Dashboard.HistoryAfterTicks | src/pages/Index.tsx:33-54 | after n ≥ 1 ticks every patient is consistent, its history length is min(start + n, 50), and id, name, age, room are unchanged |
| Dashboard.SeededHistoryStaysFull | src/pages/Index.tsx:48 | a seeded roster holds exactly 50 history samples after any number of ticks, zero included |
| Dashboard.StatusCountsPartition | src/pages/Index.tsx:63-70 | the three status counts add up to the roster size |
| Dashboard.ComparePriority | src/pages/Index.tsx:75-81 | the sort comparator; `CompareIsRankOrder` shows it compares a rank |
| Dashboard.PriorityPatients | src/pages/Index.tsx:73-81 | the priority list; `RosterSplit` and `PriorityOrder` state its contents and order, `SortIsStable` its tie order |
| Dashboard.StablePatients | src/pages/Index.tsx:83 | the stable list; `RosterSplit` states it holds exactly the normal, unflagged patients |
| Dashboard.CompareIsRankOrder | src/pages/Index.tsx:75-81 | the comparator is the comparison of a rank, hence a consistent total preorder |
| Dashboard.InsertByRank | src/pages/Index.tsx:75-81 | insertion adds exactly the one element |
| Dashboard.InsertByRankSorted | src/pages/Index.tsx:75-81 | insertion into a rank-sorted list keeps it sorted |
| Dashboard.SortByPriority | src/pages/Index.tsx:75-81 | the sort is a permutation of its input |
| Dashboard.SortByPrioritySorted | src/pages/Index.tsx:75-81 | the sort's result is ordered by rank |
| Dashboard.InsertKeepsRankOrder | src/pages/Index.tsx:75-81 | insertion places the element ahead of every element of its own rank |
| Dashboard.SortIsStable | src/pages/Index.tsx:75-81 | patients of equal rank keep their roster order |
| Dashboard.RosterSplit | src/pages/Index.tsx:73-83 | the priority and stable lists together are a rearrangement of the roster; each patient is in exactly one, by its predicate |
| Dashboard.PriorityOrder | src/pages/Index.tsx:73-81 | in the priority list critical patients come first, and among equal criticality the flagged ones first |
| Dashboard.DerivedPriorityIsNonNormal | src/pages/Index.tsx:74 | with derived status and flag, a patient is in the priority list exactly when it is not normal |
| Dashboard.Monitor.constructor | src/pages/Index.tsx:13-16 | the roster starts empty, the simulation on |
| Dashboard.Monitor.Initialize | src/pages/Index.tsx:28-30 | the roster becomes the seeded roster, the flag is kept |
| Dashboard.Monitor.ToggleSimulation | src/pages/Index.tsx:102 | the flag flips, the roster is kept |
| Dashboard.Monitor.IntervalElapsed | src/pages/Index.tsx:33-54 | while simulating the roster is ticked, while paused it is unchanged |
| Dashboard.Monitor.GetStatusCounts | src/pages/Index.tsx:63-70 | the counters equal the number of patients per status and of flagged patients, and the status counters sum to the roster size |
| Sequences.LastN | src/pages/Index.tsx:48 | `slice(-n)` yields min(|s|, n) elements, the suffix of `s` |
| Sequences.Filter | src/components/PatientFilters.tsx:26-40 | `Array.prototype.filter`; its contract is `FilterSpec` and `FilterIsSubsequence` |
| Sequences.FilterSpec | src/components/PatientFilters.tsx:26-40 | `filter` keeps only elements satisfying the test, all of them, no more often than the input holds them |
| Sequences.FilterIsSubsequence | src/components/PatientFilters.tsx:26-40 | `filter` keeps the input order |
| Sequences.FilterFilter | src/components/PatientFilters.tsx:22-41 | filtering twice equals filtering once by the conjunction |
| Sequences.FilterKeepsAll | src/components/PatientFilters.tsx:22 | a test every element passes keeps the whole sequence |
| Sequences.FilterCongruent | src/components/PatientFilters.tsx:22-41 | tests agreeing on the elements filter alike |
| Sequences.FilterSplit | src/pages/Index.tsx:73-83 | a test and its negation split the sequence, each element once |
| Text.Trim | src/components/PatientFormModal.tsx:53-76 | `String.prototype.trim`; its contract is `TrimSpec` |
| Text.TrimSpec | src/components/PatientFormModal.tsx:53-76 | `trim` returns a slice with only whitespace around it, not starting or ending in whitespace, empty exactly when the input is blank |
| Text.ToLower | src/components/PatientFilters.tsx:27-29 | the length is kept and each character is lower-cased on its own |
| Text.Contains | src/components/PatientFilters.tsx:27-29 | `includes` holds exactly when the term occurs at some position |
| Text.LexIrreflexive | src/components/PatientFilters.tsx:19 | the default string order is irreflexive |
| Text.LexTransitive | src/components/PatientFilters.tsx:19 | the default string order is transitive |
| Text.LexTotal | src/components/PatientFilters.tsx:19 | any two strings are equal or ordered one way |
| Text.LexAsymmetric | src/components/PatientFilters.tsx:19 | the default string order is asymmetric |
| PatientFilters.SearchStep | src/components/PatientFilters.tsx:25-31 | the search step equals filtering by "search off or matches" |
| PatientFilters.StatusStep | src/components/PatientFilters.tsx:34-36 | after the status step the result is the roster filtered by both tests so far |
| PatientFilters.RoomStep | src/components/PatientFilters.tsx:39-41 | after the room step the result is the roster filtered by all three tests |
| PatientFilters.Matching | src/components/PatientFilters.tsx:21-44 | the patients passing every active filter; characterised by `MatchingSpec` |
| PatientFilters.MatchingSpec | src/components/PatientFilters.tsx:21-44 | the result is an order-preserving subsequence of the roster holding exactly the patients passing every active filter, and the whole roster with no filter active |
| PatientFilters.RoomsOf | src/components/PatientFilters.tsx:19 | one room per patient, in roster order |
| PatientFilters.Distinct | src/components/PatientFilters.tsx:19 | the `Set` holds each input element exactly once |
| PatientFilters.InsertString | src/components/PatientFilters.tsx:19 | insertion adds exactly the one element |
| PatientFilters.SortStrings | src/components/PatientFilters.tsx:19 | the sort is a permutation |
| PatientFilters.LexLeTransitive | src/components/PatientFilters.tsx:19 | the non-strict order is transitive |
| PatientFilters.InsertStringSorted | src/components/PatientFilters.tsx:19 | insertion into a sorted list keeps it sorted |
| PatientFilters.SortStringsSorted | src/components/PatientFilters.tsx:19 | the sort's result is sorted |
| PatientFilters.UniqueRooms | src/components/PatientFilters.tsx:19 | `uniqueRooms`; characterised by `UniqueRoomsSpec` |
| PatientFilters.UniqueRoomsSpec | src/components/PatientFilters.tsx:19 | the room list is strictly ascending and holds exactly the roster's rooms |
| PatientFilters.FilterPanel.constructor | src/components/PatientFilters.tsx:14-16 | empty search, both selects at "all" |
| PatientFilters.FilterPanel.HasActiveFilters | src/components/PatientFilters.tsx:52 | some filter is on; false after `ClearFilters`, and `ApplyFilters` returns the whole roster when it is false |
| PatientFilters.FilterPanel.SetSearchTerm | src/components/PatientFilters.tsx:14 | only the search term changes |
| PatientFilters.FilterPanel.SetStatusFilter | src/components/PatientFilters.tsx:15 | only the status filter changes |
| PatientFilters.FilterPanel.SetRoomFilter | src/components/PatientFilters.tsx:16 | only the room filter changes |
| PatientFilters.FilterPanel.ClearFilters | src/components/PatientFilters.tsx:46-52 | all three filters reset, after which no filter is active |
| PatientFilters.FilterPanel.ApplyFilters | src/components/PatientFilters.tsx:21-44 | the three conditional filter steps yield the roster's order restricted to the patients passing every active filter, the whole roster with none active |
| PatientForm.Set | src/components/PatientFormModal.tsx:89 | the edited input takes the value, the others are kept |
| PatientForm.FormErrors | src/components/PatientFormModal.tsx:50-63 | the errors `validateForm` collects; characterised by `FormErrorsSpec` |
| PatientForm.FormErrorsSpec | src/components/PatientFormModal.tsx:50-66 | name/room reported exactly when blank, age reported unless non-empty and a finite number in [1, 120], each with its message, and no errors exactly when the form is valid |
| PatientForm.NatToDecimal | src/components/PatientFormModal.tsx:73 | the numeral is non-empty and all digits |
| PatientForm.DecimalRoundTrip | src/components/PatientFormModal.tsx:73 | reading the printed numeral back gives the number |
| PatientForm.SignOfDecimal | src/components/PatientFormModal.tsx:73 | a printed integer starts with `-` exactly when negative |
| PatientForm.IntDecimalInjective | src/components/PatientFormModal.tsx:73 | different integers print differently |
| PatientForm.FreshId | src/components/PatientFormModal.tsx:73 | the id `P${Date.now()}`; `FreshIdInjective` shows it non-empty and distinct per instant |
| PatientForm.FreshIdInjective | src/components/PatientFormModal.tsx:73 | generated ids are non-empty and distinct for distinct instants |
| PatientForm.BuildRecord | src/components/PatientFormModal.tsx:72-82 | the saved record; stated by `SavedRecordWellFormed`, `EditKeepsClinicalState` and `AddStartsNormal` |
| PatientForm.SavedRecordWellFormed | src/components/PatientFormModal.tsx:69-82 | a record saved from a valid form has a non-empty id, trimmed non-empty name and room, the typed age (which lies in [1, 120]), and the save's instant |
| PatientForm.EditKeepsClinicalState | src/components/PatientFormModal.tsx:72-82 | editing keeps status, history, current sample, flag and a non-empty id |
| PatientForm.AddStartsNormal | src/components/PatientFormModal.tsx:72-82 | an added patient has a fresh id, empty history, no flag, a default-based sample stamped `now`, and its `normal` status agrees with the classifier |
| PatientForm.PatientFormState.constructor | src/components/PatientFormModal.tsx:25-31 | no patient, empty inputs, no errors |
| PatientForm.PatientFormState.Load | src/components/PatientFormModal.tsx:33-48 | inputs show the patient's fields, or are emptied when adding; errors cleared |
| PatientForm.PatientFormState.ValidateForm | src/components/PatientFormModal.tsx:50-67 | errors become those of the current inputs; the result is true exactly when the form is valid and no error is recorded |
| PatientForm.PatientFormState.HandleSave | src/components/PatientFormModal.tsx:69-86 | nothing is saved exactly when the form is invalid; otherwise the built record is saved |
| PatientForm.PatientFormState.HandleInputChange | src/components/PatientFormModal.tsx:88-93 | the input takes the value; a shown error on that field is blanked, others kept |
| PatientForm.InputChangeClearsOnlyThatError | src/components/PatientFormModal.tsx:90-92 | afterwards the edited field shows no error and every other field's shown errors are unchanged |
| JsMath.Round | src/components/ModelMetricsPanel.tsx:73 | `Math.round` is within half a unit, halves rounded up |
| JsMath.RoundMonotone | src/components/ModelMetricsPanel.tsx:73 | rounding keeps order |
| ModelMetrics.ScoreTier | src/components/ModelMetricsPanel.tsx:14-24 | tiers: ≥ 0.9, [0.8, 0.9), < 0.8 |
| ModelMetrics.ScoreColor | src/components/ModelMetricsPanel.tsx:14-18 | the colour class names the score's tier |
| ModelMetrics.ScoreBg | src/components/ModelMetricsPanel.tsx:20-24 | the background class names the score's tier |
| ModelMetrics.RocAucLabel | src/components/ModelMetricsPanel.tsx:104 | the badge label is the label of the score's tier |
| ModelMetrics.TierMonotone | src/components/ModelMetricsPanel.tsx:14-24 | a higher score is never in a more severe tier |
| ModelMetrics.PresentationDeterminedByTier | src/components/ModelMetricsPanel.tsx:14-24 | colour, background and label are equal for two scores exactly when their tiers are |
| ModelMetrics.Percentage | src/components/ModelMetricsPanel.tsx:73 | the percentage is within half a point of value × 100 |
| ModelMetrics.PercentageMonotone | src/components/ModelMetricsPanel.tsx:73 | percentages keep order, and a score in [0, 1] shows in [0, 100] |
| VitalChart.Round1 | src/components/VitalChart.tsx:24 | one-decimal rounding is within 0.05 |
| VitalChart.ChartData | src/components/VitalChart.tsx:22-26 | min(|data|, 20) points, the last samples in order, each the rounded channel value |
| VitalChart.ChartTracksData | src/components/VitalChart.tsx:22-26 | every plotted value, the newest included, is within 0.05 of its sample and carries its timestamp |
| VitalChart.HeaderValue | src/components/VitalChart.tsx:49 | the header value; `HeaderShowsNewest` states it |
| VitalChart.HeaderShowsNewest | src/components/VitalChart.tsx:49 | the header is absent exactly for empty data, otherwise the newest sample rounded |
| VitalChart.MinValue | src/components/VitalChart.tsx:62 | the smallest plotted value, attained |
| VitalChart.MaxValue | src/components/VitalChart.tsx:62 | the largest plotted value, attained |
| VitalChart.YDomain | src/components/VitalChart.tsx:62 | the axis domain chosen from the normal band; `AxisContainsData` states the bounds |
| VitalChart.AxisBounds | src/components/VitalChart.tsx:62 | the drawn axis range; `AxisContainsData` states it contains the data or the band |
| VitalChart.AxisContainsData | src/components/VitalChart.tsx:62 | without a band all points lie five units inside the axis, with one the band lies ten units inside |

## Left out

- Markup, styling, icons and charting-library configuration: these are presentation only. This covers
  `PatientCard`, `PatientDetailModal` and the tooltip.
- The 3000 ms `setInterval` and its cleanup: timers are outside the model. `IntervalElapsed` is one expiry
  of the interval, and the effect's re-run on a toggle is the `isSimulating` test in that method.
- `Math.random()` and `Date.now()`/`new Date()` are inputs, as described above. Within one operation the
  model uses a single instant, whereas the source reads the clock several times.
- IEEE-754 arithmetic: numbers are modelled as exact reals. Rounding error, and NaN or infinity in a metric
  score, are not represented.
- MockData.GenerateMockVitals: `timestamp` is an integer count of milliseconds, not a `Date` object.
- PatientForm.PatientFormState.ValidateForm: `Number(formData.age)` is an input (`NumberValue`). JavaScript's
  string-to-number grammar is not modelled.
- PatientForm.PatientFormState.Load: the age is shown as `patient.age.toString()`, which is taken as the
  input `ageText`. Number printing is not modelled.
- PatientForm.FreshId: prints `Date.now()` as a plain decimal numeral. JavaScript's exponent notation for
  magnitudes of 10^21 and above is not modelled; no clock reaches that range.
- Text.ToLower: lowers ASCII letters only. Full Unicode case mapping is not modelled.
- Text.LexLess: compares Unicode scalar values. `Array.prototype.sort` compares UTF-16 code units, and the
  two orders differ only for characters outside the Basic Multilingual Plane.
- The `toLocaleTimeString` labels of chart points, and `toFixed(3)` of the ROC AUC: locale formatting is
  not modelled. A point carries its timestamp instead.
- The static `modelMetrics` literal is not modelled: it is a constant with no logic.
- The selected-patient and modal-open state, `onClose`, `onSave` and `onFilteredPatientsChange` are not
  modelled: they are wiring between components. The filter result is returned by `ApplyFilters`, and the save
  result by `HandleSave`.
- The unused `MLClassification` and `AnomalyDetection` interfaces are not modelled.
- The seeding mutates the literal's objects in place (`patient.status = …`, `vitals.push`). The model
  updates records inside a local roster sequence. No other reference to those objects exists, so aliasing is
  not observable.
- VitalChart.AxisBounds: the `'dataMin - 5'`/`'dataMax + 5'` strings are interpreted as the chart library
  does. The library's tick rounding of the range is not modelled.
- Edge cases kept exactly as the source writes them:
  - `patient?.id || …` replaces an empty id with a fresh one.
  - A room literally named "all" cannot be selected on its own, because that value switches the room filter
    off.
  - The dialog's initial `useState` (lines 25–29) is superseded by the effect at lines 33–48, which the
    model runs as `Load`.
