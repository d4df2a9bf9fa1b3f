/**
 * The dashboard page: the simulation tick over the roster, the pause/resume flag, the
 * status counts and the split into priority and stable patients.
 */
module Dashboard {
  import opened Health
  import opened MockData
  import opened Sequences

  // ---------------------------------------------------------------------------
  // Tick

  /** Samples kept in each patient's rolling history. */
  const HistoryCapacity: nat := 50

  /** The draws one patient consumes in one tick: a new sample, and the anomaly draw. */
  datatype TickDraws = TickDraws(vitals: VitalDraws, anomaly: real)

  /** One patient's update in a tick, at instant `now`. */
  function TickPatient(p: Patient, d: TickDraws, now: int): Patient {
    var newVitals := GenerateMockVitals(BaselineOf(p.currentVitals), d.vitals, now);
    p.(currentVitals := newVitals,
       status := ClassifyPatientStatus(newVitals),
       anomalyDetected := DetectAnomalies(newVitals, d.anomaly),
       vitals := LastN(p.vitals, HistoryCapacity - 1) + [newVitals],
       lastUpdated := now)
  }

  /**
   * What a tick does to one patient: identity fields kept; a new sample generated from the
   * previous one; status and flag recomputed from it; the history grown by one up to the cap
   * of 50, ending in the new sample, preceded by the newest entries of the old history in
   * order.
   */
  lemma TickPatientSpec(p: Patient, d: TickDraws, now: int)
    ensures var q := TickPatient(p, d, now);
      && q.id == p.id && q.name == p.name && q.age == p.age && q.roomNumber == p.roomNumber
      && q.currentVitals == GenerateMockVitals(BaselineOf(p.currentVitals), d.vitals, now)
      && q.status == ClassifyPatientStatus(q.currentVitals)
      && q.anomalyDetected == DetectAnomalies(q.currentVitals, d.anomaly)
      && |q.vitals| == (if |p.vitals| < HistoryCapacity then |p.vitals| + 1 else HistoryCapacity)
      && q.vitals[|q.vitals| - 1] == q.currentVitals
      && q.vitals[..|q.vitals| - 1] == p.vitals[|p.vitals| - (|q.vitals| - 1)..]
      && q.lastUpdated == now
  {
    var q := TickPatient(p, d, now);
    assert q.vitals[..|q.vitals| - 1] == LastN(p.vitals, HistoryCapacity - 1);
  }

  /** One tick over the whole roster: every patient updated from the same snapshot, in order. */
  function Tick(roster: seq<Patient>, draws: seq<TickDraws>, now: int): (r: seq<Patient>)
    requires |draws| == |roster|
    ensures |r| == |roster|
    ensures forall i :: 0 <= i < |r| ==> r[i] == TickPatient(roster[i], draws[i], now)
  {
    seq(|roster|, i requires 0 <= i < |roster| => TickPatient(roster[i], draws[i], now))
  }

  /** The inputs of one tick: each patient's draws and the instant it runs. */
  datatype TickInput = TickInput(draws: seq<TickDraws>, now: int)

  predicate SizedFor(inputs: seq<TickInput>, n: nat) {
    forall k :: 0 <= k < |inputs| ==> |inputs[k].draws| == n
  }

  /** A run of consecutive ticks. */
  function RunTicks(roster: seq<Patient>, inputs: seq<TickInput>): (r: seq<Patient>)
    requires SizedFor(inputs, |roster|)
    ensures |r| == |roster|
    decreases |inputs|
  {
    if inputs == [] then roster
    else RunTicks(Tick(roster, inputs[0].draws, inputs[0].now), inputs[1..])
  }

  /** A patient whose history ends in its current sample and whose status and flag come from it. */
  predicate Consistent(p: Patient) {
    && 0 < |p.vitals| <= HistoryCapacity
    && p.vitals[|p.vitals| - 1] == p.currentVitals
    && p.status == ClassifyPatientStatus(p.currentVitals)
    && (p.anomalyDetected ==> AnomalyPattern(p.currentVitals))
  }

  function MinNat(a: nat, b: nat): nat {
    if a < b then a else b
  }

  /**
   * `p` is what `start` can have become after `n` ticks: consistent, its history grown by `n`
   * up to the cap, and id, name, age and room unchanged.
   */
  predicate Evolved(start: Patient, p: Patient, n: nat) {
    && Consistent(p)
    && |p.vitals| == MinNat(|start.vitals| + n, HistoryCapacity)
    && p.id == start.id && p.name == start.name
    && p.age == start.age && p.roomNumber == start.roomNumber
  }

  /** After one tick a patient is consistent and its history has grown by one, up to the cap. */
  lemma TickMakesConsistent(roster: seq<Patient>, draws: seq<TickDraws>, now: int, i: int)
    requires |draws| == |roster| && 0 <= i < |roster|
    ensures Evolved(roster[i], Tick(roster, draws, now)[i], 1)
  {
    TickPatientEvolves(roster[i], draws[i], now);
  }

  lemma TickPatientEvolves(p: Patient, d: TickDraws, now: int)
    ensures Evolved(p, TickPatient(p, d, now), 1)
  {
    var q := TickPatient(p, d, now);
    var window := LastN(p.vitals, HistoryCapacity - 1);
    assert q.vitals == window + [q.currentVitals];
  }

  lemma EvolvedCompose(a: Patient, b: Patient, c: Patient, m: nat, n: nat)
    requires Evolved(a, b, m) && Evolved(b, c, n) && n > 0
    ensures Evolved(a, c, m + n)
  {
  }

  /**
   * After one or more ticks every patient is consistent, its history has grown by one per tick
   * up to the cap of 50, and id, name, age and room are those it started with.
   */
  lemma {:induction false} HistoryAfterTicks(roster: seq<Patient>, inputs: seq<TickInput>, i: int)
    requires SizedFor(inputs, |roster|) && 0 <= i < |roster| && |inputs| > 0
    ensures Evolved(roster[i], RunTicks(roster, inputs)[i], |inputs|)
    decreases |inputs|
  {
    var next := Tick(roster, inputs[0].draws, inputs[0].now);
    TickMakesConsistent(roster, inputs[0].draws, inputs[0].now, i);
    assert RunTicks(roster, inputs) == RunTicks(next, inputs[1..]);
    if |inputs| == 1 {
      assert RunTicks(next, inputs[1..]) == next;
    } else {
      assert SizedFor(inputs[1..], |next|);
      HistoryAfterTicks(next, inputs[1..], i);
      EvolvedCompose(roster[i], next[i], RunTicks(roster, inputs)[i], 1, |inputs| - 1);
    }
  }

  /** A seeded roster keeps exactly 50 history samples through any number of ticks. */
  lemma SeededHistoryStaysFull(draws: SeedDraws, now: int, inputs: seq<TickInput>, i: int)
    requires WellSized(draws) && SizedFor(inputs, 6) && 0 <= i < 6
    ensures |RunTicks(SeedRoster(draws, now), inputs)[i].vitals| == HistoryCapacity
  {
    SeedDerivedFields(draws, now, i);
    if inputs != [] {
      HistoryAfterTicks(SeedRoster(draws, now), inputs, i);
    }
  }

  // ---------------------------------------------------------------------------
  // Counting

  /** The four counters the overview cards show. */
  datatype StatusCounts = StatusCounts(normal: nat, warning: nat, critical: nat, anomaly: nat)

  function CountStatus(ps: seq<Patient>, s: PatientStatus): nat {
    if ps == [] then 0
    else CountStatus(ps[..|ps| - 1], s) + (if ps[|ps| - 1].status == s then 1 else 0)
  }

  function CountAnomalies(ps: seq<Patient>): nat {
    if ps == [] then 0
    else CountAnomalies(ps[..|ps| - 1]) + (if ps[|ps| - 1].anomalyDetected then 1 else 0)
  }

  /** Every patient has exactly one status, so the three status counts add up to the roster size. */
  lemma {:induction false} StatusCountsPartition(ps: seq<Patient>)
    ensures CountStatus(ps, Normal) + CountStatus(ps, Warning) + CountStatus(ps, Critical) == |ps|
  {
    if ps != [] {
      StatusCountsPartition(ps[..|ps| - 1]);
    }
  }

  // ---------------------------------------------------------------------------
  // Priority and stable lists

  /** A patient the priority list shows: critical, warning, or flagged anomalous. */
  predicate IsPriority(p: Patient) {
    p.status == Critical || p.status == Warning || p.anomalyDetected
  }

  /** A patient the stable list shows: normal and not flagged. */
  predicate IsStable(p: Patient) {
    p.status == Normal && !p.anomalyDetected
  }

  /** The comparator handed to `sort`: critical first, then anomalous first. */
  function ComparePriority(a: Patient, b: Patient): int {
    if a.status == Critical && b.status != Critical then -1
    else if b.status == Critical && a.status != Critical then 1
    else if a.anomalyDetected && !b.anomalyDetected then -1
    else if b.anomalyDetected && !a.anomalyDetected then 1
    else 0
  }

  /** The rank the comparator orders by: 0 critical and anomalous, 1 critical, 2 anomalous, 3 neither. */
  function Rank(p: Patient): nat {
    (if p.status == Critical then 0 else 2) + (if p.anomalyDetected then 0 else 1)
  }

  /** The comparator is the comparison of ranks, hence a consistent total preorder. */
  lemma CompareIsRankOrder(a: Patient, b: Patient)
    ensures ComparePriority(a, b) < 0 <==> Rank(a) < Rank(b)
    ensures ComparePriority(a, b) == 0 <==> Rank(a) == Rank(b)
    ensures ComparePriority(a, b) > 0 <==> Rank(a) > Rank(b)
  {
  }

  predicate SortedByRank(s: seq<Patient>) {
    forall i, j :: 0 <= i < j < |s| ==> Rank(s[i]) <= Rank(s[j])
  }

  /** Insert `p` before the first element that does not rank strictly above it. */
  function InsertByRank(p: Patient, s: seq<Patient>): (r: seq<Patient>)
    ensures |r| == |s| + 1
    ensures multiset(r) == multiset(s) + multiset{p}
  {
    if s == [] || Rank(p) <= Rank(s[0]) then [p] + s
    else
      assert s == [s[0]] + s[1..];
      [s[0]] + InsertByRank(p, s[1..])
  }

  /** A sorted list stays sorted with an element in front that ranks no lower than its head. */
  lemma PrependSorted(x: Patient, t: seq<Patient>)
    requires SortedByRank(t) && (t != [] ==> Rank(x) <= Rank(t[0]))
    ensures SortedByRank([x] + t)
  {
    var r := [x] + t;
    forall i, j | 0 <= i < j < |r| ensures Rank(r[i]) <= Rank(r[j]) {
      assert r[j] == t[j - 1];
      if i > 0 {
        assert r[i] == t[i - 1];
      } else {
        assert Rank(t[0]) <= Rank(t[j - 1]);
      }
    }
  }

  lemma TailSorted(s: seq<Patient>)
    requires SortedByRank(s) && s != []
    ensures SortedByRank(s[1..])
  {
    forall i, j | 0 <= i < j < |s| - 1 ensures Rank(s[1..][i]) <= Rank(s[1..][j]) {
      assert s[1..][i] == s[i + 1] && s[1..][j] == s[j + 1];
    }
  }

  /** Inserting into a sorted list keeps it sorted. */
  lemma {:induction false} InsertByRankSorted(p: Patient, s: seq<Patient>)
    requires SortedByRank(s)
    ensures SortedByRank(InsertByRank(p, s))
    ensures InsertByRank(p, s)[0] == if s == [] || Rank(p) <= Rank(s[0]) then p else s[0]
  {
    if s == [] || Rank(p) <= Rank(s[0]) {
      PrependSorted(p, s);
    } else {
      var tail := InsertByRank(p, s[1..]);
      TailSorted(s);
      InsertByRankSorted(p, s[1..]);
      PrependSorted(s[0], tail);
    }
  }

  /** A stable sort by rank, as `Array.prototype.sort` with the comparator above. */
  function SortByPriority(s: seq<Patient>): (r: seq<Patient>)
    ensures multiset(r) == multiset(s)
  {
    if s == [] then []
    else
      assert s == [s[0]] + s[1..];
      InsertByRank(s[0], SortByPriority(s[1..]))
  }

  /** The sort's result is ordered by rank. */
  lemma {:induction false} SortByPrioritySorted(s: seq<Patient>)
    ensures SortedByRank(SortByPriority(s))
  {
    if s != [] {
      SortByPrioritySorted(s[1..]);
      InsertByRankSorted(s[0], SortByPriority(s[1..]));
    }
  }

  /** The patients of `s` with rank `k`, in their order in `s`. */
  function WithRank(s: seq<Patient>, k: nat): seq<Patient> {
    Filter(s, (p: Patient) => Rank(p) == k)
  }

  /** Inserting `p` puts it ahead of every element of its own rank. */
  lemma {:induction false} InsertKeepsRankOrder(p: Patient, s: seq<Patient>, k: nat)
    ensures WithRank(InsertByRank(p, s), k) == WithRank([p] + s, k)
  {
    var f := (q: Patient) => Rank(q) == k;
    if s == [] || Rank(p) <= Rank(s[0]) {
    } else {
      var tail := InsertByRank(p, s[1..]);
      InsertKeepsRankOrder(p, s[1..], k);
      assert ([s[0]] + tail)[1..] == tail;
      assert ([p] + s)[1..] == s;
      assert ([p] + s[1..])[1..] == s[1..];
      assert WithRank([s[0]] + tail, k) == (if f(s[0]) then [s[0]] else []) + WithRank(tail, k);
      assert WithRank([p] + s[1..], k) == (if f(p) then [p] else []) + WithRank(s[1..], k);
      assert WithRank(s, k) == (if f(s[0]) then [s[0]] else []) + WithRank(s[1..], k);
      assert WithRank([p] + s, k) == (if f(p) then [p] else []) + WithRank(s, k);
    }
  }

  /**
   * Stability: for every rank, the patients of that rank appear in the sorted list in the
   * same order as in the input, so ties keep roster order.
   */
  lemma {:induction false} SortIsStable(s: seq<Patient>, k: nat)
    ensures WithRank(SortByPriority(s), k) == WithRank(s, k)
  {
    if s != [] {
      SortIsStable(s[1..], k);
      var t := SortByPriority(s[1..]);
      InsertKeepsRankOrder(s[0], t, k);
      assert ([s[0]] + t)[1..] == t;
      assert s == [s[0]] + s[1..];
      assert WithRank([s[0]] + t, k) == (if Rank(s[0]) == k then [s[0]] else []) + WithRank(t, k);
      assert WithRank(s, k) == (if Rank(s[0]) == k then [s[0]] else []) + WithRank(s[1..], k);
    }
  }

  /** `criticalAndWarningPatients`. */
  function PriorityPatients(ps: seq<Patient>): seq<Patient> {
    SortByPriority(Filter(ps, IsPriority))
  }

  /** `normalPatients`. */
  function StablePatients(ps: seq<Patient>): seq<Patient> {
    Filter(ps, IsStable)
  }

  /**
   * Every roster entry is shown exactly once, in one of the two lists: together they are a
   * rearrangement of the roster, and a patient is in the priority list exactly when it is
   * not stable.
   */
  lemma RosterSplit(ps: seq<Patient>)
    ensures multiset(PriorityPatients(ps)) + multiset(StablePatients(ps)) == multiset(ps)
    ensures forall p :: p in PriorityPatients(ps) ==> p in ps && IsPriority(p) && !IsStable(p)
    ensures forall p :: p in StablePatients(ps) ==> p in ps && IsStable(p) && !IsPriority(p)
    ensures forall i :: 0 <= i < |ps| ==> (ps[i] in PriorityPatients(ps) <==> !(ps[i] in StablePatients(ps)))
  {
    FilterSplit(ps, IsPriority, IsStable);
    FilterSpec(ps, IsPriority);
    FilterSpec(ps, IsStable);
    assert multiset(PriorityPatients(ps)) == multiset(Filter(ps, IsPriority));
    forall p | p in PriorityPatients(ps) ensures p in Filter(ps, IsPriority) {
      assert p in multiset(PriorityPatients(ps));
    }
    forall i | 0 <= i < |ps| ensures ps[i] in PriorityPatients(ps) <==> !(ps[i] in StablePatients(ps)) {
      if IsPriority(ps[i]) {
        assert ps[i] in Filter(ps, IsPriority);
        assert ps[i] in multiset(PriorityPatients(ps));
      }
    }
  }

  /** The priority list is ordered: critical before non-critical, then anomalous before not. */
  lemma PriorityOrder(ps: seq<Patient>)
    ensures var l := PriorityPatients(ps); forall i, j :: 0 <= i < j < |l| ==>
      && (l[j].status == Critical ==> l[i].status == Critical)
      && ((l[i].status == Critical) == (l[j].status == Critical) && l[j].anomalyDetected ==> l[i].anomalyDetected)
  {
    SortByPrioritySorted(Filter(ps, IsPriority));
  }

  /**
   * When status and flag are derived from the current sample (as after every tick) the
   * anomaly test is redundant: the priority patients are exactly the non-normal ones.
   */
  lemma {:induction false} DerivedPriorityIsNonNormal(p: Patient)
    requires p.status == ClassifyPatientStatus(p.currentVitals)
    requires p.anomalyDetected ==> AnomalyPattern(p.currentVitals)
    ensures IsPriority(p) <==> p.status != Normal
  {
    if p.anomalyDetected {
      AnomalyImpliesNotNormal(p.currentVitals, 1.0);
    }
  }

  // ---------------------------------------------------------------------------
  // Page state

  /** The page's state: the roster and whether the simulation timer runs. */
  class Monitor {
    var patients: seq<Patient>
    var isSimulating: bool

    /** Before the mount effect runs: an empty roster, simulation on. */
    constructor ()
      ensures patients == [] && isSimulating
    {
      patients := [];
      isSimulating := true;
    }

    /** The mount effect: the roster becomes the seeded one. */
    method Initialize(draws: SeedDraws, now: int)
      requires WellSized(draws)
      modifies this
      ensures patients == SeedRoster(draws, now)
      ensures isSimulating == old(isSimulating)
    {
      patients := GenerateMockPatients(draws, now);
    }

    /** The Pause/Resume button. */
    method ToggleSimulation()
      modifies this
      ensures isSimulating == !old(isSimulating)
      ensures patients == old(patients)
    {
      isSimulating := !isSimulating;
    }

    /** The interval elapsing: a tick while the simulation runs, nothing while it is paused. */
    method IntervalElapsed(draws: seq<TickDraws>, now: int)
      requires |draws| == |patients|
      modifies this
      ensures isSimulating == old(isSimulating)
      ensures patients == if isSimulating then Tick(old(patients), draws, now) else old(patients)
    {
      if isSimulating {
        patients := Tick(patients, draws, now);
      }
    }

    /** `getStatusCounts`. */
    method GetStatusCounts() returns (counts: StatusCounts)
      ensures counts.normal == CountStatus(patients, Normal)
      ensures counts.warning == CountStatus(patients, Warning)
      ensures counts.critical == CountStatus(patients, Critical)
      ensures counts.anomaly == CountAnomalies(patients)
      ensures counts.normal + counts.warning + counts.critical == |patients|
    {
      counts := StatusCounts(0, 0, 0, 0);
      var i := 0;
      while i < |patients|
        invariant 0 <= i <= |patients|
        invariant counts.normal == CountStatus(patients[..i], Normal)
        invariant counts.warning == CountStatus(patients[..i], Warning)
        invariant counts.critical == CountStatus(patients[..i], Critical)
        invariant counts.anomaly == CountAnomalies(patients[..i])
      {
        var patient := patients[i];
        assert patients[..i + 1][..i] == patients[..i];
        match patient.status {
          case Normal => counts := counts.(normal := counts.normal + 1);
          case Warning => counts := counts.(warning := counts.warning + 1);
          case Critical => counts := counts.(critical := counts.critical + 1);
        }
        if patient.anomalyDetected {
          counts := counts.(anomaly := counts.anomaly + 1);
        }
        i := i + 1;
      }
      assert patients[..i] == patients;
      StatusCountsPartition(patients);
    }
  }
}
