/**
 * The past-reports list: a case-insensitive search on period and facility,
 * a status filter, and a sort by submission date, emissions or period in
 * either direction, applied to a copy of the reports on every render.
 */
module Reports {
  import opened Wrappers
  import opened Text

  /** One emissions report. The submission date is an abstract ordered key. */
  datatype Report = Report(
    id: string,
    period: string,
    submissionDate: int,
    totalEmissions: string,
    facility: string,
    status: string,
    notes: string)

  // ---------------------------------------------------------------------------
  // Filtering
  // ---------------------------------------------------------------------------

  /** The filter callback: search term in period or facility, and the status filter. */
  predicate Keep(r: Report, searchTerm: string, filterStatus: string)
  {
    var term := Lower(searchTerm);
    (Contains(Lower(r.period), term) || Contains(Lower(r.facility), term))
    && (filterStatus == "all" || r.status == filterStatus)
  }

  /** `reports.filter(...)`: the kept reports, in their original order. */
  function Filter(reports: seq<Report>, searchTerm: string, filterStatus: string): (kept: seq<Report>)
    ensures |kept| <= |reports|
  {
    if reports == [] then []
    else (if Keep(reports[0], searchTerm, filterStatus) then [reports[0]] else [])
         + Filter(reports[1..], searchTerm, filterStatus)
  }

  /** Each report occurs in the result as often as in the input if it is kept, otherwise never. */
  lemma {:induction false} FilterCount(reports: seq<Report>, searchTerm: string, filterStatus: string, r: Report)
    ensures multiset(Filter(reports, searchTerm, filterStatus))[r]
         == if Keep(r, searchTerm, filterStatus) then multiset(reports)[r] else 0
  {
    if reports != [] {
      var head := if Keep(reports[0], searchTerm, filterStatus) then [reports[0]] else [];
      var rest := Filter(reports[1..], searchTerm, filterStatus);
      FilterCount(reports[1..], searchTerm, filterStatus, r);
      assert multiset(Filter(reports, searchTerm, filterStatus)) == multiset(head) + multiset(rest);
      assert reports == [reports[0]] + reports[1..];
      assert multiset(reports) == multiset{reports[0]} + multiset(reports[1..]);
    }
  }

  /** A report is in the result iff it is in the input and passes the filter. */
  lemma FilterMembership(reports: seq<Report>, searchTerm: string, filterStatus: string, r: Report)
    ensures r in Filter(reports, searchTerm, filterStatus) <==> r in reports && Keep(r, searchTerm, filterStatus)
  {
    FilterCount(reports, searchTerm, filterStatus, r);
  }

  /** Filtering keeps relative order: it distributes over concatenation. */
  lemma {:induction false} FilterAppend(xs: seq<Report>, ys: seq<Report>, searchTerm: string, filterStatus: string)
    ensures Filter(xs + ys, searchTerm, filterStatus)
         == Filter(xs, searchTerm, filterStatus) + Filter(ys, searchTerm, filterStatus)
  {
    if xs == [] {
      assert xs + ys == ys;
    } else {
      var head := if Keep(xs[0], searchTerm, filterStatus) then [xs[0]] else [];
      var rest := Filter(xs[1..], searchTerm, filterStatus);
      var tail := Filter(ys, searchTerm, filterStatus);
      assert (xs + ys)[0] == xs[0];
      assert (xs + ys)[1..] == xs[1..] + ys;
      FilterAppend(xs[1..], ys, searchTerm, filterStatus);
      assert Filter(xs + ys, searchTerm, filterStatus) == head + (rest + tail);
      assert head + (rest + tail) == (head + rest) + tail;
    }
  }

  /** When every report passes, nothing is dropped or moved. */
  lemma {:induction false} FilterKeepsAll(reports: seq<Report>, searchTerm: string, filterStatus: string)
    requires forall i :: 0 <= i < |reports| ==> Keep(reports[i], searchTerm, filterStatus)
    ensures Filter(reports, searchTerm, filterStatus) == reports
  {
    if reports != [] {
      FilterKeepsAll(reports[1..], searchTerm, filterStatus);
    }
  }

  /** An empty search term with status "all" keeps every report. */
  lemma EmptyQueryKeepsAll(reports: seq<Report>)
    ensures Filter(reports, "", "all") == reports
  {
    forall i | 0 <= i < |reports|
      ensures Keep(reports[i], "", "all")
    {
      ContainsEmpty(Lower(reports[i].period));
    }
    FilterKeepsAll(reports, "", "all");
  }

  /** Filtering an already filtered list changes nothing. */
  lemma FilterIdempotent(reports: seq<Report>, searchTerm: string, filterStatus: string)
    ensures Filter(Filter(reports, searchTerm, filterStatus), searchTerm, filterStatus)
         == Filter(reports, searchTerm, filterStatus)
  {
    var kept := Filter(reports, searchTerm, filterStatus);
    forall i | 0 <= i < |kept|
      ensures Keep(kept[i], searchTerm, filterStatus)
    {
      FilterMembership(reports, searchTerm, filterStatus, kept[i]);
    }
    FilterKeepsAll(kept, searchTerm, filterStatus);
  }

  // ---------------------------------------------------------------------------
  // The emissions key: comma-grouped decimal digits
  // ---------------------------------------------------------------------------

  predicate IsDigit(c: char)
  {
    '0' <= c <= '9'
  }

  predicate AllDigits(d: string)
  {
    forall i :: 0 <= i < |d| ==> IsDigit(d[i])
  }

  /** An emissions figure the numeric sort can read: digits, optionally grouped by commas. */
  predicate WellFormedEmissions(s: string)
  {
    StripCommas(s) != [] && AllDigits(StripCommas(s))
  }

  /** The decimal value of a digit string. */
  function DigitsValue(d: string): nat
    requires AllDigits(d)
  {
    if d == [] then 0
    else DigitsValue(d[..|d| - 1]) * 10 + (d[|d| - 1] as int - '0' as int)
  }

  /** `parseFloat(totalEmissions.replace(/,/g, ''))` on a well-formed figure. */
  function EmissionsValue(s: string): nat
    requires WellFormedEmissions(s)
  {
    DigitsValue(StripCommas(s))
  }

  /** Grouping commas are ignored: "12,450" reads as 12450. */
  lemma EmissionsIgnoreCommas()
    ensures WellFormedEmissions("12,450") && EmissionsValue("12,450") == 12450
  {
    UngroupedExample();
    var a, b := "12", "450";
    assert a + b == "12450";
    EmissionsCommaInsensitive(a, b);
    assert a + "," + b == "12,450";
  }

  lemma UngroupedExample()
    ensures WellFormedEmissions("12450") && EmissionsValue("12450") == 12450
  {
    StripCommasKeepsCommaFree("12450");
    DigitsValueExample();
  }

  lemma DigitsValueExample()
    ensures AllDigits("12450") && DigitsValue("12450") == 12450
  {
    assert "12"[..1] == "1";
    assert DigitsValue("12") == 12;
    assert "124"[..2] == "12";
    assert DigitsValue("124") == 124;
    assert "1245"[..3] == "124";
    assert DigitsValue("1245") == 1245;
    assert "12450"[..4] == "1245";
  }

  /**
   * Commas anywhere in a figure are ignored: inserting one between any two
   * parts of a well-formed figure keeps it well formed and keeps its value.
   */
  lemma EmissionsCommaInsensitive(a: string, b: string)
    requires WellFormedEmissions(a + b)
    ensures WellFormedEmissions(a + "," + b)
    ensures EmissionsValue(a + "," + b) == EmissionsValue(a + b)
  {
    StripCommasAppend(a, b);
    StripCommasAppend(a + ",", b);
    StripCommasAppend(a, ",");
    assert StripCommas(",") == [] by {
      assert ","[1..] == [];
    }
    assert StripCommas(a + ",") == StripCommas(a);
  }

  // ---------------------------------------------------------------------------
  // Sorting
  // ---------------------------------------------------------------------------

  /** `parseFloat` of the comma-stripped figure; `None` stands for NaN. */
  function EmissionsNumber(s: string): Option<nat>
  {
    if WellFormedEmissions(s) then Some(EmissionsValue(s)) else None
  }

  /**
   * `emissionsA - emissionsB`. A NaN difference is read by the sort as 0,
   * so a figure that does not parse compares equal to every other.
   */
  function EmissionsDifference(a: string, b: string): int
  {
    match (EmissionsNumber(a), EmissionsNumber(b))
    case (Some(x), Some(y)) => x as int - y as int
    case _ => 0
  }

  /** The sort comparator: negative puts `a` first, positive puts `b` first. */
  function Compare(a: Report, b: Report, sortBy: string, sortOrder: string): int
  {
    if sortBy == "date" then
      if sortOrder == "asc" then a.submissionDate - b.submissionDate
      else b.submissionDate - a.submissionDate
    else if sortBy == "emissions" then
      if sortOrder == "asc" then EmissionsDifference(a.totalEmissions, b.totalEmissions)
      else EmissionsDifference(b.totalEmissions, a.totalEmissions)
    else
      if sortOrder == "asc" then LexCompare(a.period, b.period)
      else LexCompare(b.period, a.period)
  }

  /** `a` may stand before `b`. */
  predicate InOrder(a: Report, b: Report, sortBy: string, sortOrder: string)
  {
    Compare(a, b, sortBy, sortOrder) <= 0
  }

  /** Every pair of reports stands in comparator order. */
  predicate Sorted(s: seq<Report>, sortBy: string, sortOrder: string)
  {
    forall i, j :: 0 <= i < j < |s| ==> InOrder(s[i], s[j], sortBy, sortOrder)
  }

  /**
   * A report whose emissions figure parses, when sorting by emissions. Only
   * among such reports is the comparator a consistent order (NaN compares
   * equal to everything, which is not transitive).
   */
  predicate Sortable(r: Report, sortBy: string)
  {
    sortBy != "emissions" || WellFormedEmissions(r.totalEmissions)
  }

  predicate AllSortable(s: seq<Report>, sortBy: string)
  {
    forall i :: 0 <= i < |s| ==> Sortable(s[i], sortBy)
  }

  /** Descending is ascending with the operands swapped, for every key. */
  lemma CompareDescendingSwaps(a: Report, b: Report, sortBy: string, sortOrder: string)
    requires sortOrder != "asc"
    ensures Compare(a, b, sortBy, sortOrder) == Compare(b, a, sortBy, "asc")
  {
  }

  /** Any two reports can be ordered one way or the other. */
  lemma InOrderTotal(a: Report, b: Report, sortBy: string, sortOrder: string)
    ensures InOrder(a, b, sortBy, sortOrder) || InOrder(b, a, sortBy, sortOrder)
  {
    LexCompareAntisymmetric(a.period, b.period);
  }

  lemma InOrderTransitive(a: Report, b: Report, c: Report, sortBy: string, sortOrder: string)
    requires Sortable(a, sortBy) && Sortable(b, sortBy) && Sortable(c, sortBy)
    requires InOrder(a, b, sortBy, sortOrder) && InOrder(b, c, sortBy, sortOrder)
    ensures InOrder(a, c, sortBy, sortOrder)
  {
    if sortBy != "date" && sortBy != "emissions" {
      if sortOrder == "asc" {
        LexCompareTransitive(a.period, b.period, c.period);
      } else {
        LexCompareTransitive(c.period, b.period, a.period);
      }
    }
  }

  /** Sorted by "date": non-decreasing dates ascending, non-increasing descending. */
  lemma SortedByDate(s: seq<Report>, sortOrder: string, i: int, j: int)
    requires Sorted(s, "date", sortOrder) && 0 <= i < j < |s|
    ensures sortOrder == "asc" ==> s[i].submissionDate <= s[j].submissionDate
    ensures sortOrder != "asc" ==> s[i].submissionDate >= s[j].submissionDate
  {
    assert InOrder(s[i], s[j], "date", sortOrder);
  }

  /** Sorted by "emissions": ordered by the comma-stripped numeric value. */
  lemma SortedByEmissions(s: seq<Report>, sortOrder: string, i: int, j: int)
    requires AllSortable(s, "emissions") && Sorted(s, "emissions", sortOrder) && 0 <= i < j < |s|
    ensures sortOrder == "asc" ==> EmissionsValue(s[i].totalEmissions) <= EmissionsValue(s[j].totalEmissions)
    ensures sortOrder != "asc" ==> EmissionsValue(s[i].totalEmissions) >= EmissionsValue(s[j].totalEmissions)
  {
    assert InOrder(s[i], s[j], "emissions", sortOrder);
  }

  /** Any other key falls through to lexicographic order of the period. */
  lemma SortedByPeriod(s: seq<Report>, sortBy: string, sortOrder: string, i: int, j: int)
    requires sortBy != "date" && sortBy != "emissions"
    requires Sorted(s, sortBy, sortOrder) && 0 <= i < j < |s|
    ensures sortOrder == "asc" ==> LexCompare(s[i].period, s[j].period) <= 0
    ensures sortOrder != "asc" ==> LexCompare(s[i].period, s[j].period) >= 0
  {
    assert InOrder(s[i], s[j], sortBy, sortOrder);
    LexCompareAntisymmetric(s[i].period, s[j].period);
  }

  function Reverse(s: seq<Report>): seq<Report>
  {
    seq(|s|, i requires 0 <= i < |s| => s[|s| - 1 - i])
  }

  /** Reversing an ascending list gives a descending one, for every key. */
  lemma SortedReverse(s: seq<Report>, sortBy: string)
    requires Sorted(s, sortBy, "asc")
    ensures Sorted(Reverse(s), sortBy, "desc")
  {
    var r := Reverse(s);
    forall i, j | 0 <= i < j < |r|
      ensures InOrder(r[i], r[j], sortBy, "desc")
    {
      assert InOrder(s[|s| - 1 - j], s[|s| - 1 - i], sortBy, "asc");
    }
  }

  /** `Array.prototype.sort` with the comparator, as an insertion sort in place. */
  method SortInPlace(a: array<Report>, sortBy: string, sortOrder: string)
    requires forall k :: 0 <= k < a.Length ==> Sortable(a[k], sortBy)
    modifies a
    ensures multiset(a[..]) == old(multiset(a[..]))
    ensures Sorted(a[..], sortBy, sortOrder)
  {
    var i := 0;
    while i < a.Length
      invariant 0 <= i <= a.Length
      invariant multiset(a[..]) == old(multiset(a[..]))
      invariant forall k :: 0 <= k < a.Length ==> Sortable(a[k], sortBy)
      invariant forall k, l :: 0 <= k < l < i ==> InOrder(a[k], a[l], sortBy, sortOrder)
    {
      InsertAt(a, i, sortBy, sortOrder);
      i := i + 1;
    }
  }

  /** One pass of the insertion sort: sinks `a[i]` into the sorted prefix `a[..i]`. */
  method InsertAt(a: array<Report>, i: int, sortBy: string, sortOrder: string)
    requires 0 <= i < a.Length
    requires forall k :: 0 <= k < a.Length ==> Sortable(a[k], sortBy)
    requires forall k, l :: 0 <= k < l < i ==> InOrder(a[k], a[l], sortBy, sortOrder)
    modifies a
    ensures multiset(a[..]) == old(multiset(a[..]))
    ensures forall k :: 0 <= k < a.Length ==> Sortable(a[k], sortBy)
    ensures forall k, l :: 0 <= k < l <= i ==> InOrder(a[k], a[l], sortBy, sortOrder)
  {
    var j := i;
    while j > 0 && !InOrder(a[j - 1], a[j], sortBy, sortOrder)
      invariant 0 <= j <= i
      invariant multiset(a[..]) == old(multiset(a[..]))
      invariant forall k :: 0 <= k < a.Length ==> Sortable(a[k], sortBy)
      invariant forall k, l :: 0 <= k < l <= i && k != j && l != j ==> InOrder(a[k], a[l], sortBy, sortOrder)
      invariant forall l :: j < l <= i ==> InOrder(a[j], a[l], sortBy, sortOrder)
    {
      InOrderTotal(a[j - 1], a[j], sortBy, sortOrder);
      Swap(a, j - 1, j);
      j := j - 1;
    }
    forall k, l | 0 <= k < l <= i
      ensures InOrder(a[k], a[l], sortBy, sortOrder)
    {
      if l == j && k < j - 1 {
        InOrderTransitive(a[k], a[j - 1], a[j], sortBy, sortOrder);
      }
    }
  }

  /** Exchanges two elements and leaves the rest in place. */
  method Swap(a: array<Report>, i: int, j: int)
    requires 0 <= i < j < a.Length
    modifies a
    ensures a[i] == old(a[j]) && a[j] == old(a[i])
    ensures forall k :: 0 <= k < a.Length && k != i && k != j ==> a[k] == old(a[k])
    ensures multiset(a[..]) == old(multiset(a[..]))
  {
    a[i], a[j] := a[j], a[i];
  }

  /** The list the modal shows: the filtered copy, sorted; `reports` itself is untouched. */
  method Query(reports: seq<Report>, searchTerm: string, filterStatus: string, sortBy: string, sortOrder: string)
    returns (shown: seq<Report>)
    requires forall r :: r in Filter(reports, searchTerm, filterStatus) ==> Sortable(r, sortBy)
    ensures multiset(shown) == multiset(Filter(reports, searchTerm, filterStatus))
    ensures Sorted(shown, sortBy, sortOrder)
  {
    var kept := Filter(reports, searchTerm, filterStatus);
    var a := new Report[|kept|](i requires 0 <= i < |kept| => kept[i]);
    assert a[..] == kept;
    SortInPlace(a, sortBy, sortOrder);
    shown := a[..];
  }

  /** Scenario: only the late Q3 2022 report survives the "Late Submission" filter. */
  lemma LateSubmissionScenario(shown: seq<Report>)
    requires multiset(shown) == multiset(Filter([MainQ1, MainQ3], "", "Late Submission"))
    ensures shown == [MainQ3]
  {
    LateSubmissionFilter();
    assert |shown| == 1;
    assert shown[0] in multiset(shown);
  }

  lemma LateSubmissionFilter()
    ensures Filter([MainQ1, MainQ3], "", "Late Submission") == [MainQ3]
  {
    var rs := [MainQ1, MainQ3];
    assert MainQ1.status != "Late Submission" by {
      assert |MainQ1.status| != |"Late Submission"|;
    }
    KeptLate();
    assert rs[1..] == [MainQ3];
    assert Filter(rs[1..], "", "Late Submission") == [MainQ3] + Filter([], "", "Late Submission");
  }

  lemma KeptLate()
    ensures Keep(MainQ3, "", "Late Submission")
  {
    ContainsEmpty(Lower(MainQ3.period));
  }

  const MainQ1 := Report("1", "Q1 2023", 20230415, "12,450", "Main Plant", "Compliant", "")
  const MainQ3 := Report("2", "Q3 2022", 20221020, "15,670", "Main Plant", "Late Submission", "")

  // ---------------------------------------------------------------------------
  // The modal's query state
  // ---------------------------------------------------------------------------

  /** `toggleSortOrder`: asc becomes desc, anything else becomes asc. */
  function Toggled(sortOrder: string): (t: string)
    ensures t == "asc" || t == "desc"
  {
    if sortOrder == "asc" then "desc" else "asc"
  }

  /** Toggling twice restores either direction; toggling reverses the comparator. */
  lemma ToggleInvolutive(sortOrder: string, a: Report, b: Report, sortBy: string)
    requires sortOrder == "asc" || sortOrder == "desc"
    ensures Toggled(Toggled(sortOrder)) == sortOrder
    ensures Toggled(sortOrder) != sortOrder
    ensures Compare(a, b, sortBy, Toggled(sortOrder)) == Compare(b, a, sortBy, sortOrder)
  {
  }

  /** The search, filter and sort controls of the past-reports modal. */
  class ReportsModal {
    var searchTerm: string
    var filterStatus: string
    var sortBy: string
    var sortOrder: string

    ghost predicate Valid()
      reads this
    {
      sortOrder == "asc" || sortOrder == "desc"
    }

    constructor ()
      ensures Valid()
      ensures searchTerm == "" && filterStatus == "all" && sortBy == "date" && sortOrder == "desc"
    {
      searchTerm, filterStatus, sortBy, sortOrder := "", "all", "date", "desc";
    }

    method SetSearchTerm(term: string)
      requires Valid()
      modifies this
      ensures Valid()
      ensures searchTerm == term
      ensures filterStatus == old(filterStatus) && sortBy == old(sortBy) && sortOrder == old(sortOrder)
    {
      searchTerm := term;
    }

    method SetFilterStatus(status: string)
      requires Valid()
      modifies this
      ensures Valid()
      ensures filterStatus == status
      ensures searchTerm == old(searchTerm) && sortBy == old(sortBy) && sortOrder == old(sortOrder)
    {
      filterStatus := status;
    }

    method SetSortBy(key: string)
      requires Valid()
      modifies this
      ensures Valid()
      ensures sortBy == key
      ensures searchTerm == old(searchTerm) && filterStatus == old(filterStatus) && sortOrder == old(sortOrder)
    {
      sortBy := key;
    }

    method ToggleSortOrder()
      requires Valid()
      modifies this
      ensures Valid()
      ensures sortOrder == Toggled(old(sortOrder)) && sortOrder != old(sortOrder)
      ensures old(sortOrder) == "asc" <==> sortOrder == "desc"
      ensures old(sortOrder) == "desc" <==> sortOrder == "asc"
      ensures searchTerm == old(searchTerm) && filterStatus == old(filterStatus) && sortBy == old(sortBy)
    {
      sortOrder := if sortOrder == "asc" then "desc" else "asc";
    }

    /** The rows rendered for `reports` under the current controls. */
    method Visible(reports: seq<Report>) returns (shown: seq<Report>)
      requires Valid()
      requires forall r :: r in Filter(reports, searchTerm, filterStatus) ==> Sortable(r, sortBy)
      ensures multiset(shown) == multiset(Filter(reports, searchTerm, filterStatus))
      ensures Sorted(shown, sortBy, sortOrder)
    {
      shown := Query(reports, searchTerm, filterStatus, sortBy, sortOrder);
    }
  }
}
