/**
 * The roster filter panel: search, status and room filters applied in turn, the sorted list
 * of distinct rooms offered by the room filter, and the panel's own state.
 */
module PatientFilters {
  import opened Health
  import opened Text
  import opened Sequences

  /** The select value that switches a filter off. */
  const AllOption: string := "all"

  /** The search test: the lower-cased term occurs in the lower-cased name, room or id. */
  predicate MatchesSearch(p: Patient, term: string) {
    var t := ToLower(term);
    Contains(ToLower(p.name), t) || Contains(ToLower(p.roomNumber), t) || Contains(ToLower(p.id), t)
  }

  /** A patient passes each filter that is switched on (an empty search is off). */
  predicate Passes(p: Patient, search: string, statusFilter: string, roomFilter: string) {
    && (search == "" || MatchesSearch(p, search))
    && (statusFilter == AllOption || StatusName(p.status) == statusFilter)
    && (roomFilter == AllOption || p.roomNumber == roomFilter)
  }

  /** The test each filter step hands to `filter`. */
  function SearchTest(term: string): Patient -> bool {
    (p: Patient) => MatchesSearch(p, term)
  }

  function StatusTest(statusFilter: string): Patient -> bool {
    (p: Patient) => StatusName(p.status) == statusFilter
  }

  function RoomTest(roomFilter: string): Patient -> bool {
    (p: Patient) => p.roomNumber == roomFilter
  }

  /** The combined test after the first step, after the second, and after all three. */
  function SearchStage(term: string): Patient -> bool {
    (p: Patient) => term == "" || MatchesSearch(p, term)
  }

  function StatusStage(term: string, statusFilter: string): Patient -> bool {
    (p: Patient) => (term == "" || MatchesSearch(p, term))
                    && (statusFilter == AllOption || StatusName(p.status) == statusFilter)
  }

  function PassesAll(term: string, statusFilter: string, roomFilter: string): Patient -> bool {
    (p: Patient) => Passes(p, term, statusFilter, roomFilter)
  }

  /** The patients that pass all three filters, in roster order. */
  function Matching(ps: seq<Patient>, search: string, statusFilter: string, roomFilter: string): seq<Patient> {
    Filter(ps, PassesAll(search, statusFilter, roomFilter))
  }

  lemma SearchStep(ps: seq<Patient>, term: string)
    ensures (if term != "" then Filter(ps, SearchTest(term)) else ps) == Filter(ps, SearchStage(term))
  {
    if term != "" {
      FilterCongruent(ps, SearchTest(term), SearchStage(term));
    } else {
      FilterKeepsAll(ps, SearchStage(term));
    }
  }

  lemma StatusStep(ps: seq<Patient>, term: string, statusFilter: string)
    ensures var before := Filter(ps, SearchStage(term));
      (if statusFilter != AllOption then Filter(before, StatusTest(statusFilter)) else before)
      == Filter(ps, StatusStage(term, statusFilter))
  {
    if statusFilter != AllOption {
      FilterFilter(ps, SearchStage(term), StatusTest(statusFilter), StatusStage(term, statusFilter));
    } else {
      FilterCongruent(ps, SearchStage(term), StatusStage(term, statusFilter));
    }
  }

  lemma RoomStep(ps: seq<Patient>, term: string, statusFilter: string, roomFilter: string)
    ensures var before := Filter(ps, StatusStage(term, statusFilter));
      (if roomFilter != AllOption then Filter(before, RoomTest(roomFilter)) else before)
      == Matching(ps, term, statusFilter, roomFilter)
  {
    if roomFilter != AllOption {
      FilterFilter(ps, StatusStage(term, statusFilter), RoomTest(roomFilter), PassesAll(term, statusFilter, roomFilter));
    } else {
      FilterCongruent(ps, StatusStage(term, statusFilter), PassesAll(term, statusFilter, roomFilter));
    }
  }

  /**
   * What the filter steps add up to: the roster's own order restricted to the patients that
   * pass every active filter, all of them kept.
   */
  lemma MatchingSpec(ps: seq<Patient>, search: string, statusFilter: string, roomFilter: string)
    ensures var r := Matching(ps, search, statusFilter, roomFilter);
      && IsSubsequence(r, ps)
      && (forall i :: 0 <= i < |r| ==> Passes(r[i], search, statusFilter, roomFilter))
      && (forall i :: 0 <= i < |ps| && Passes(ps[i], search, statusFilter, roomFilter) ==> ps[i] in r)
    ensures search == "" && statusFilter == AllOption && roomFilter == AllOption ==>
      Matching(ps, search, statusFilter, roomFilter) == ps
  {
    var f := PassesAll(search, statusFilter, roomFilter);
    var r := Matching(ps, search, statusFilter, roomFilter);
    FilterIsSubsequence(ps, f);
    FilterSpec(ps, f);
    forall i | 0 <= i < |r| ensures Passes(r[i], search, statusFilter, roomFilter) {
      assert f(r[i]);
    }
    forall i | 0 <= i < |ps| && Passes(ps[i], search, statusFilter, roomFilter) ensures ps[i] in r {
      assert f(ps[i]);
    }
    if search == "" && statusFilter == AllOption && roomFilter == AllOption {
      FilterKeepsAll(ps, f);
    }
  }

  // ---------------------------------------------------------------------------
  // Distinct rooms

  function RoomsOf(ps: seq<Patient>): (r: seq<string>)
    ensures |r| == |ps| && forall i :: 0 <= i < |ps| ==> r[i] == ps[i].roomNumber
  {
    if ps == [] then [] else [ps[0].roomNumber] + RoomsOf(ps[1..])
  }

  ghost predicate NoDuplicates(s: seq<string>) {
    forall x :: multiset(s)[x] <= 1
  }

  /** `Array.from(new Set(s))`: each value once, in order of first occurrence. */
  function Distinct(s: seq<string>): (r: seq<string>)
    ensures forall x :: x in r <==> x in s
    ensures NoDuplicates(r)
  {
    if s == [] then []
    else
      var r := Distinct(s[..|s| - 1]);
      assert s == s[..|s| - 1] + [s[|s| - 1]];
      if s[|s| - 1] in r then r else r + [s[|s| - 1]]
  }

  /** `a` sorts no later than `b`. */
  predicate LexLe(a: string, b: string) {
    a == b || LexLess(a, b)
  }

  predicate Sorted(s: seq<string>) {
    forall i, j :: 0 <= i < j < |s| ==> LexLe(s[i], s[j])
  }

  predicate StrictlySorted(s: seq<string>) {
    forall i, j :: 0 <= i < j < |s| ==> LexLess(s[i], s[j])
  }

  function InsertString(x: string, s: seq<string>): (r: seq<string>)
    ensures |r| == |s| + 1
    ensures r[0] == if s == [] || LexLe(x, s[0]) then x else s[0]
    ensures multiset(r) == multiset(s) + multiset{x}
  {
    if s == [] || LexLe(x, s[0]) then [x] + s
    else
      assert s == [s[0]] + s[1..];
      [s[0]] + InsertString(x, s[1..])
  }

  /** The default `Array.prototype.sort` on strings: ascending in character order. */
  function SortStrings(s: seq<string>): (r: seq<string>)
    ensures multiset(r) == multiset(s)
  {
    if s == [] then []
    else
      assert s == [s[0]] + s[1..];
      InsertString(s[0], SortStrings(s[1..]))
  }

  lemma LexLeTransitive(a: string, b: string, c: string)
    requires LexLe(a, b) && LexLe(b, c)
    ensures LexLe(a, c)
  {
    if a != b && b != c {
      LexTransitive(a, b, c);
    }
  }

  lemma {:induction false} InsertStringSorted(x: string, s: seq<string>)
    requires Sorted(s)
    ensures Sorted(InsertString(x, s))
  {
    var r := InsertString(x, s);
    if s == [] || LexLe(x, s[0]) {
      forall j | 1 <= j < |r| ensures LexLe(x, r[j]) {
        if j > 1 { LexLeTransitive(x, s[0], s[j - 1]); }
      }
    } else {
      LexTotal(x, s[0]);
      var tail := InsertString(x, s[1..]);
      InsertStringSorted(x, s[1..]);
      assert r == [s[0]] + tail;
      if s[1..] != [] && !LexLe(x, s[1]) {
        assert tail[0] == s[1];
      }
      forall j | 1 <= j < |r| ensures LexLe(s[0], r[j]) {
        assert r[j] == tail[j - 1];
        if j > 1 { LexLeTransitive(s[0], tail[0], tail[j - 1]); }
      }
    }
  }

  lemma {:induction false} SortStringsSorted(s: seq<string>)
    ensures Sorted(SortStrings(s))
  {
    if s != [] {
      SortStringsSorted(s[1..]);
      InsertStringSorted(s[0], SortStrings(s[1..]));
    }
  }

  /** `uniqueRooms`. */
  function UniqueRooms(ps: seq<Patient>): seq<string> {
    SortStrings(Distinct(RoomsOf(ps)))
  }

  lemma {:induction false} SingleOccurrence(s: seq<string>, i: int, j: int)
    requires 0 <= i < j < |s| && multiset(s)[s[i]] <= 1
    ensures s[i] != s[j]
  {
    assert s == s[..j] + s[j..];
    assert s[i] in s[..j] && s[j] in s[j..];
  }

  /**
   * The room list offered is strictly ascending, so free of duplicates, and holds exactly the
   * rooms that occur in the roster.
   */
  lemma UniqueRoomsSpec(ps: seq<Patient>)
    ensures StrictlySorted(UniqueRooms(ps))
    ensures forall x :: x in UniqueRooms(ps) <==> exists i :: 0 <= i < |ps| && ps[i].roomNumber == x
  {
    var d := Distinct(RoomsOf(ps));
    var r := UniqueRooms(ps);
    SortStringsSorted(d);
    forall i, j | 0 <= i < j < |r| ensures LexLess(r[i], r[j]) {
      assert multiset(d)[r[i]] <= 1;
      SingleOccurrence(r, i, j);
    }
    forall x ensures x in r <==> x in d {
      assert x in r <==> x in multiset(r);
    }
    forall x | x in RoomsOf(ps) ensures exists i :: 0 <= i < |ps| && ps[i].roomNumber == x {
      var i :| 0 <= i < |ps| && RoomsOf(ps)[i] == x;
    }
  }

  // ---------------------------------------------------------------------------
  // Panel state

  /** The three filter controls. */
  class FilterPanel {
    var searchTerm: string
    var statusFilter: string
    var roomFilter: string

    /** Initially nothing is filtered. */
    constructor ()
      ensures searchTerm == "" && statusFilter == AllOption && roomFilter == AllOption
    {
      searchTerm, statusFilter, roomFilter := "", AllOption, AllOption;
    }

    /** Whether any filter is switched on (it decides if the Clear button shows). */
    function HasActiveFilters(): bool
      reads this
    {
      searchTerm != "" || statusFilter != AllOption || roomFilter != AllOption
    }

    method SetSearchTerm(value: string)
      modifies this
      ensures searchTerm == value
      ensures statusFilter == old(statusFilter) && roomFilter == old(roomFilter)
    {
      searchTerm := value;
    }

    method SetStatusFilter(value: string)
      modifies this
      ensures statusFilter == value
      ensures searchTerm == old(searchTerm) && roomFilter == old(roomFilter)
    {
      statusFilter := value;
    }

    method SetRoomFilter(value: string)
      modifies this
      ensures roomFilter == value
      ensures searchTerm == old(searchTerm) && statusFilter == old(statusFilter)
    {
      roomFilter := value;
    }

    /** `clearFilters`: back to the initial state, in which no filter is active. */
    method ClearFilters()
      modifies this
      ensures searchTerm == "" && statusFilter == AllOption && roomFilter == AllOption
      ensures !HasActiveFilters()
    {
      searchTerm := "";
      statusFilter := AllOption;
      roomFilter := AllOption;
    }

    /**
     * The filtering effect: the search, status and room filters applied one after the other.
     * The result is the roster's own order restricted to the patients passing every active
     * filter, and the whole roster when no filter is active.
     */
    method ApplyFilters(patients: seq<Patient>) returns (filtered: seq<Patient>)
      ensures filtered == Matching(patients, searchTerm, statusFilter, roomFilter)
      ensures IsSubsequence(filtered, patients)
      ensures forall i :: 0 <= i < |filtered| ==> Passes(filtered[i], searchTerm, statusFilter, roomFilter)
      ensures forall i :: 0 <= i < |patients| && Passes(patients[i], searchTerm, statusFilter, roomFilter)
                ==> patients[i] in filtered
      ensures !HasActiveFilters() ==> filtered == patients
    {
      filtered := patients;
      if searchTerm != "" {
        filtered := Filter(filtered, SearchTest(searchTerm));
      }
      SearchStep(patients, searchTerm);
      if statusFilter != AllOption {
        filtered := Filter(filtered, StatusTest(statusFilter));
      }
      StatusStep(patients, searchTerm, statusFilter);
      if roomFilter != AllOption {
        filtered := Filter(filtered, RoomTest(roomFilter));
      }
      RoomStep(patients, searchTerm, statusFilter, roomFilter);
      assert filtered == Matching(patients, searchTerm, statusFilter, roomFilter);
      MatchingSpec(patients, searchTerm, statusFilter, roomFilter);
    }
  }
}
