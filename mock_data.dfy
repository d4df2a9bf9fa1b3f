/**
 * The vitals simulation core: the sample generator, the three-tier status classifier, the
 * anomaly heuristic and the seeding of the initial roster.
 *
 * Every `Math.random()` the source calls is a parameter here (a real that the source's random
 * source keeps in [0, 1)), and every clock read is the parameter `now`, in milliseconds.
 */
module MockData {
  import opened Wrappers
  import opened Health

  // ---------------------------------------------------------------------------
  // Generator

  /** A baseline of which any channel may be absent (a `Partial<VitalSigns>`). */
  datatype PartialVitals = PartialVitals(
    heartRate: Option<real>,
    respirationRate: Option<real>,
    oxygenSaturation: Option<real>,
    temperature: Option<real>)

  /** No baseline at all, as when the generator is called without an argument. */
  const NoBaseline: PartialVitals := PartialVitals(None, None, None, None)

  /** A full sample passed back in as the baseline of the next one. */
  function BaselineOf(v: VitalSigns): PartialVitals {
    PartialVitals(Some(v.heartRate), Some(v.respirationRate), Some(v.oxygenSaturation), Some(v.temperature))
  }

  /** The level a channel takes when the baseline leaves it out. */
  function DefaultLevel(c: Channel): real {
    match c
    case HeartRate => 75.0
    case RespirationRate => 16.0
    case OxygenSaturation => 98.0
    case Temperature => 98.6
  }

  /** The level of channel `c` after merging the baseline over the defaults. */
  function BaseLevel(base: PartialVitals, c: Channel): real {
    match c
    case HeartRate => base.heartRate.GetOr(DefaultLevel(c))
    case RespirationRate => base.respirationRate.GetOr(DefaultLevel(c))
    case OxygenSaturation => base.oxygenSaturation.GetOr(DefaultLevel(c))
    case Temperature => base.temperature.GetOr(DefaultLevel(c))
  }

  /** The full width of the uniform perturbation applied to each channel. */
  function Span(c: Channel): real {
    match c
    case HeartRate => 10.0
    case RespirationRate => 4.0
    case OxygenSaturation => 3.0
    case Temperature => 2.0
  }

  /** The four random draws one generated sample consumes, one per channel. */
  datatype VitalDraws = VitalDraws(heartRate: real, respirationRate: real, oxygenSaturation: real, temperature: real)

  /** A value `Math.random()` can return. */
  predicate IsUnitDraw(r: real) {
    0.0 <= r < 1.0
  }

  predicate ValidDraws(d: VitalDraws) {
    IsUnitDraw(d.heartRate) && IsUnitDraw(d.respirationRate)
    && IsUnitDraw(d.oxygenSaturation) && IsUnitDraw(d.temperature)
  }

  function Perturb(level: real, draw: real, span: real): real {
    level + (draw - 0.5) * span
  }

  /** `Math.min(a, b)`. */
  function Min(a: real, b: real): real {
    if b < a then b else a
  }

  /** `x` lies in the half-open band of half-width `half` around `level`. */
  predicate Around(level: real, half: real, x: real) {
    level - half <= x < level + half
  }

  /**
   * The samples the generator can produce from `base`: each channel within half its span of
   * its base level, and SpO2 the same but capped at 100 from above (and only from above).
   */
  predicate InGeneratedRange(base: PartialVitals, v: VitalSigns) {
    && Around(BaseLevel(base, HeartRate), 5.0, v.heartRate)
    && Around(BaseLevel(base, RespirationRate), 2.0, v.respirationRate)
    && Around(BaseLevel(base, Temperature), 1.0, v.temperature)
    && Min(100.0, BaseLevel(base, OxygenSaturation) - 1.5) <= v.oxygenSaturation
    && v.oxygenSaturation < BaseLevel(base, OxygenSaturation) + 1.5
    && v.oxygenSaturation <= 100.0
  }

  /** `generateMockVitals(base)` with the draws `d`, called at instant `now`. */
  function GenerateMockVitals(base: PartialVitals, d: VitalDraws, now: int): (v: VitalSigns)
    ensures v.timestamp == now
    ensures v.oxygenSaturation <= 100.0
    ensures ValidDraws(d) ==> InGeneratedRange(base, v)
  {
    VitalSigns(
      Perturb(BaseLevel(base, HeartRate), d.heartRate, Span(HeartRate)),
      Perturb(BaseLevel(base, RespirationRate), d.respirationRate, Span(RespirationRate)),
      Min(100.0, Perturb(BaseLevel(base, OxygenSaturation), d.oxygenSaturation, Span(OxygenSaturation))),
      Perturb(BaseLevel(base, Temperature), d.temperature, Span(Temperature)),
      now)
  }

  /** With no baseline, the generator perturbs the defaults 75, 16, 98 and 98.6. */
  lemma DefaultsWhenAbsent(d: VitalDraws, now: int)
    requires ValidDraws(d)
    ensures var v := GenerateMockVitals(NoBaseline, d, now);
      && 70.0 <= v.heartRate < 80.0 && 14.0 <= v.respirationRate < 18.0
      && 96.5 <= v.oxygenSaturation < 99.5 && 97.6 <= v.temperature < 99.6
  {
  }

  /** The draws that make the generator produce `target` from `base`. */
  function DrawsFor(base: PartialVitals, target: VitalSigns): VitalDraws {
    var spo2 := BaseLevel(base, OxygenSaturation);
    VitalDraws(
      (target.heartRate - BaseLevel(base, HeartRate)) / 10.0 + 0.5,
      (target.respirationRate - BaseLevel(base, RespirationRate)) / 4.0 + 0.5,
      if target.oxygenSaturation == 100.0 && spo2 - 1.5 >= 100.0 then 0.0
      else (target.oxygenSaturation - spo2) / 3.0 + 0.5,
      (target.temperature - BaseLevel(base, Temperature)) / 2.0 + 0.5)
  }

  /**
   * The range is exact: every sample in it is produced by some draws in [0, 1), so the
   * bounds the generator promises cannot be narrowed.
   */
  lemma GenerateReachesWholeRange(base: PartialVitals, target: VitalSigns, now: int)
    requires InGeneratedRange(base, target)
    ensures exists d :: ValidDraws(d) && GenerateMockVitals(base, d, now) == target.(timestamp := now)
  {
    var d := DrawsFor(base, target);
    assert ValidDraws(d);
    assert GenerateMockVitals(base, d, now) == target.(timestamp := now);
  }

  // ---------------------------------------------------------------------------
  // Classifier

  /** One of the seven strict comparisons that make a sample critical. */
  predicate CriticalTrigger(v: VitalSigns) {
    || v.heartRate > 120.0 || v.heartRate < 50.0
    || v.respirationRate > 24.0 || v.respirationRate < 12.0
    || v.oxygenSaturation < 90.0
    || v.temperature > 103.0 || v.temperature < 95.0
  }

  /** One of the seven strict comparisons that make a sample at least a warning. */
  predicate WarningTrigger(v: VitalSigns) {
    || v.heartRate > 100.0 || v.heartRate < 60.0
    || v.respirationRate > 20.0 || v.respirationRate < 14.0
    || v.oxygenSaturation < 95.0
    || v.temperature > 100.4 || v.temperature < 97.0
  }

  /** Every channel inside its normal band (bounds included). */
  predicate InNormalRange(v: VitalSigns) {
    && 60.0 <= v.heartRate <= 100.0
    && 14.0 <= v.respirationRate <= 20.0
    && v.oxygenSaturation >= 95.0
    && 97.0 <= v.temperature <= 100.4
  }

  /** `classifyPatientStatus`: the critical tests first, then the warning tests. */
  function ClassifyPatientStatus(v: VitalSigns): (s: PatientStatus)
    ensures s == Critical <==> CriticalTrigger(v)
    ensures s == Normal <==> InNormalRange(v)
    ensures s == Warning <==> !CriticalTrigger(v) && !InNormalRange(v)
  {
    if CriticalTrigger(v) then Critical
    else if WarningTrigger(v) then Warning
    else Normal
  }

  /** Each critical threshold lies beyond its warning threshold, so the warning tests subsume the critical ones. */
  lemma CriticalImpliesWarningTrigger(v: VitalSigns)
    ensures CriticalTrigger(v) ==> WarningTrigger(v)
    ensures ClassifyPatientStatus(v) != Normal <==> WarningTrigger(v)
  {
  }

  /** The thresholds are strict: a reading exactly on a critical bound is only a warning. */
  lemma ClassifierBoundaries()
    ensures ClassifyPatientStatus(VitalSigns(120.0, 16.0, 98.0, 98.6, 0)) == Warning
    ensures ClassifyPatientStatus(VitalSigns(121.0, 16.0, 98.0, 98.6, 0)) == Critical
    ensures ClassifyPatientStatus(VitalSigns(75.0, 16.0, 90.0, 98.6, 0)) == Warning
    ensures ClassifyPatientStatus(VitalSigns(75.0, 16.0, 89.9, 98.6, 0)) == Critical
    ensures ClassifyPatientStatus(VitalSigns(100.0, 20.0, 95.0, 100.4, 0)) == Normal
  {
  }

  /**
   * `y` is at least as far out as `x` on the side of `mid` where `x` lies, `mid` being a
   * level inside the channel's normal band.
   */
  predicate AtLeastAsExtreme(x: real, y: real, mid: real) {
    (x >= mid && y >= x) || (x <= mid && y <= x)
  }

  /**
   * Moving channels further away from the middle of their normal bands never lowers the
   * severity the classifier assigns.
   */
  lemma ClassifierMonotone(v: VitalSigns, w: VitalSigns)
    requires AtLeastAsExtreme(v.heartRate, w.heartRate, 80.0)
    requires AtLeastAsExtreme(v.respirationRate, w.respirationRate, 17.0)
    requires w.oxygenSaturation <= v.oxygenSaturation
    requires AtLeastAsExtreme(v.temperature, w.temperature, 98.6)
    ensures Severity(ClassifyPatientStatus(v)) <= Severity(ClassifyPatientStatus(w))
  {
  }

  // ---------------------------------------------------------------------------
  // Anomaly heuristic

  /** One of the three unusual channel combinations. */
  predicate AnomalyPattern(v: VitalSigns) {
    || (v.heartRate > 90.0 && v.respirationRate < 10.0)
    || (v.oxygenSaturation > 99.0 && v.heartRate > 110.0)
    || (v.temperature < 96.0 && v.heartRate > 100.0)
  }

  /** `detectAnomalies`, with `draw` the value `Math.random()` returns when a pattern matches. */
  function DetectAnomalies(v: VitalSigns, draw: real): (flag: bool)
    ensures flag ==> AnomalyPattern(v)
    ensures AnomalyPattern(v) ==> (flag <==> draw > 0.7)
  {
    if AnomalyPattern(v) then draw > 0.7 else false
  }

  /**
   * Every pattern lies outside the normal bands, so a flagged sample is never classified
   * normal; the first pattern is even critical.
   */
  lemma AnomalyImpliesNotNormal(v: VitalSigns, draw: real)
    ensures DetectAnomalies(v, draw) ==> ClassifyPatientStatus(v) != Normal
    ensures v.heartRate > 90.0 && v.respirationRate < 10.0 ==> ClassifyPatientStatus(v) == Critical
  {
  }

  // ---------------------------------------------------------------------------
  // Seeding

  /** Number of back-filled history samples per patient. */
  const HistoryLength: nat := 50

  /** Spacing of back-filled samples: one minute, in milliseconds. */
  const SampleSpacingMs: int := 60000

  /** The draws the seeding consumes: each patient's current sample, anomaly draw and history. */
  datatype SeedDraws = SeedDraws(current: seq<VitalDraws>, anomaly: seq<real>, history: seq<seq<VitalDraws>>)

  predicate WellSized(draws: SeedDraws) {
    && |draws.current| == 6 && |draws.anomaly| == 6 && |draws.history| == 6
    && forall i :: 0 <= i < 6 ==> |draws.history[i]| == HistoryLength
  }

  /** Every draw is one `Math.random()` can return. */
  predicate ValidSeedDraws(draws: SeedDraws)
    requires WellSized(draws)
  {
    && (forall i :: 0 <= i < 6 ==> ValidDraws(draws.current[i]))
    && (forall i :: 0 <= i < 6 ==> IsUnitDraw(draws.anomaly[i]))
    && (forall i, k :: 0 <= i < 6 && 0 <= k < HistoryLength ==> ValidDraws(draws.history[i][k]))
  }

  /** The roster literal: the six patients as written, before the classifying pass. */
  function InitialRoster(current: seq<VitalDraws>, now: int): seq<Patient>
    requires |current| == 6
  {
    [ Patient("P001", "John Smith", 45.0, "ICU-101", Normal, [],
              GenerateMockVitals(NoBaseline, current[0], now), false, now),
      Patient("P002", "Maria Garcia", 67.0, "ICU-102", Warning, [],
              GenerateMockVitals(PartialVitals(Some(105.0), None, None, Some(101.2)), current[1], now), false, now),
      Patient("P003", "Robert Johnson", 72.0, "ICU-103", Critical, [],
              GenerateMockVitals(PartialVitals(Some(125.0), None, Some(88.0), None), current[2], now), true, now),
      Patient("P004", "Sarah Wilson", 34.0, "ICU-104", Normal, [],
              GenerateMockVitals(NoBaseline, current[3], now), false, now),
      Patient("P005", "Michael Brown", 58.0, "ICU-105", Warning, [],
              GenerateMockVitals(PartialVitals(Some(95.0), Some(22.0), None, None), current[4], now), false, now),
      Patient("P006", "Lisa Davis", 41.0, "ICU-106", Normal, [],
              GenerateMockVitals(NoBaseline, current[5], now), false, now) ]
  }

  /** Back-filled sample `k`: generated from `base`, then restamped `50 - k` minutes before `now`. */
  function HistorySample(base: VitalSigns, d: VitalDraws, now: int, k: int): VitalSigns {
    GenerateMockVitals(BaselineOf(base), d, now).(timestamp := now - (HistoryLength - k) * SampleSpacingMs)
  }

  function Backfill(base: VitalSigns, ds: seq<VitalDraws>, now: int): seq<VitalSigns> {
    seq(|ds|, k requires 0 <= k < |ds| => HistorySample(base, ds[k], now, k))
  }

  /** Back-filling one more draw appends one more sample. */
  lemma BackfillStep(base: VitalSigns, ds: seq<VitalDraws>, now: int, k: nat)
    requires k < |ds|
    ensures Backfill(base, ds[..k + 1], now) == Backfill(base, ds[..k], now) + [HistorySample(base, ds[k], now, k)]
  {
    assert ds[..k + 1][..k] == ds[..k];
  }

  /** A roster entry after the classifying pass: status, anomaly flag and history all set from its current sample. */
  function Seeded(p: Patient, anomalyDraw: real, history: seq<VitalDraws>, now: int): Patient {
    p.(status := ClassifyPatientStatus(p.currentVitals),
       anomalyDetected := DetectAnomalies(p.currentVitals, anomalyDraw),
       vitals := p.vitals + Backfill(p.currentVitals, history, now))
  }

  /** What `generateMockPatients` returns. */
  function SeedRoster(draws: SeedDraws, now: int): seq<Patient>
    requires WellSized(draws)
  {
    var initial := InitialRoster(draws.current, now);
    seq(6, i requires 0 <= i < 6 => Seeded(initial[i], draws.anomaly[i], draws.history[i], now))
  }

  /**
   * The body of the classifying pass for one patient: derive status and flag from the current
   * sample, then append one back-filled sample per history draw.
   */
  method SeedPatient(p: Patient, anomalyDraw: real, history: seq<VitalDraws>, now: int) returns (patient: Patient)
    ensures patient == Seeded(p, anomalyDraw, history, now)
  {
    patient := p.(status := ClassifyPatientStatus(p.currentVitals));
    patient := patient.(anomalyDetected := DetectAnomalies(patient.currentVitals, anomalyDraw));
    var k := 0;
    while k < |history|
      invariant 0 <= k <= |history|
      invariant patient == Seeded(p, anomalyDraw, history[..k], now)
    {
      var sample := GenerateMockVitals(BaselineOf(patient.currentVitals), history[k], now);
      sample := sample.(timestamp := now - (HistoryLength - k) * SampleSpacingMs);
      BackfillStep(patient.currentVitals, history, now, k);
      patient := patient.(vitals := patient.vitals + [sample]);
      k := k + 1;
    }
    assert history[..|history|] == history;
  }

  /** `generateMockPatients`: the literal roster, then one pass that classifies and back-fills each patient. */
  method GenerateMockPatients(draws: SeedDraws, now: int) returns (patients: seq<Patient>)
    requires WellSized(draws)
    ensures patients == SeedRoster(draws, now)
  {
    patients := InitialRoster(draws.current, now);
    ghost var initial := patients;
    ghost var target := SeedRoster(draws, now);
    var i := 0;
    while i < |patients|
      invariant |patients| == 6 && 0 <= i <= 6
      invariant forall j :: 0 <= j < i ==> patients[j] == target[j]
      invariant forall j :: i <= j < 6 ==> patients[j] == initial[j]
    {
      var patient := SeedPatient(patients[i], draws.anomaly[i], draws.history[i], now);
      patients := patients[i := patient];
      i := i + 1;
    }
  }

  /** The roster has six patients, P001 to P006, with the literal's names, ages and rooms. */
  lemma SeedIdentities(draws: SeedDraws, now: int)
    requires WellSized(draws)
    ensures var r := SeedRoster(draws, now);
      && |r| == 6
      && [r[0].id, r[1].id, r[2].id, r[3].id, r[4].id, r[5].id] == ["P001", "P002", "P003", "P004", "P005", "P006"]
      && [r[0].name, r[1].name, r[2].name, r[3].name, r[4].name, r[5].name]
         == ["John Smith", "Maria Garcia", "Robert Johnson", "Sarah Wilson", "Michael Brown", "Lisa Davis"]
      && [r[0].age, r[1].age, r[2].age, r[3].age, r[4].age, r[5].age] == [45.0, 67.0, 72.0, 34.0, 58.0, 41.0]
      && [r[0].roomNumber, r[1].roomNumber, r[2].roomNumber, r[3].roomNumber, r[4].roomNumber, r[5].roomNumber]
         == ["ICU-101", "ICU-102", "ICU-103", "ICU-104", "ICU-105", "ICU-106"]
      && forall i :: 0 <= i < 6 ==> r[i].lastUpdated == now
  {
  }

  /**
   * Status and anomaly flag come from each patient's current sample, not from the literal,
   * and the history holds exactly 50 samples a minute apart, strictly increasing and all
   * before `now`.
   */
  lemma {:induction false} SeedDerivedFields(draws: SeedDraws, now: int, i: int)
    requires WellSized(draws) && 0 <= i < 6
    ensures var p := SeedRoster(draws, now)[i];
      && p.status == ClassifyPatientStatus(p.currentVitals)
      && p.anomalyDetected == DetectAnomalies(p.currentVitals, draws.anomaly[i])
      && |p.vitals| == HistoryLength
      && (forall k :: 0 <= k < |p.vitals| ==> p.vitals[k].timestamp == now - (HistoryLength - k) * SampleSpacingMs)
      && (forall j, k :: 0 <= j < k < |p.vitals| ==> p.vitals[j].timestamp < p.vitals[k].timestamp)
      && (forall k :: 0 <= k < |p.vitals| ==> p.vitals[k].timestamp < now)
  {
    var p := SeedRoster(draws, now)[i];
    assert InitialRoster(draws.current, now)[i].vitals == [];
    assert p.vitals == Backfill(p.currentVitals, draws.history[i], now);
  }

  /**
   * After seeding the current sample is not in the history: every history sample is stamped
   * before `now`, the current one at `now`.
   */
  lemma {:induction false} SeedCurrentNotInHistory(draws: SeedDraws, now: int, i: int)
    requires WellSized(draws) && 0 <= i < 6
    ensures SeedRoster(draws, now)[i].currentVitals !in SeedRoster(draws, now)[i].vitals
  {
    var p := SeedRoster(draws, now)[i];
    SeedDerivedFields(draws, now, i);
    assert p.currentVitals.timestamp == now;
  }

  /**
   * With genuine draws the seeded statuses are fixed per patient: P001, P004 and P006 are
   * normal, P003 critical, P002 and P005 never critical; and no seeded patient is flagged
   * anomalous, whatever P003's literal says.
   */
  lemma {:induction false} SeededStatuses(draws: SeedDraws, now: int)
    requires WellSized(draws) && ValidSeedDraws(draws)
    ensures var r := SeedRoster(draws, now);
      && r[0].status == Normal && r[3].status == Normal && r[5].status == Normal
      && r[2].status == Critical
      && r[1].status != Critical && r[4].status != Critical
      && forall i :: 0 <= i < 6 ==> !r[i].anomalyDetected
  {
    var r := SeedRoster(draws, now);
    var initial := InitialRoster(draws.current, now);
    assert ValidDraws(draws.current[0]) && ValidDraws(draws.current[1]) && ValidDraws(draws.current[2]);
    assert ValidDraws(draws.current[3]) && ValidDraws(draws.current[4]) && ValidDraws(draws.current[5]);
    forall i | 0 <= i < 6 ensures !r[i].anomalyDetected {
      assert r[i].anomalyDetected == DetectAnomalies(initial[i].currentVitals, draws.anomaly[i]);
    }
  }
}
