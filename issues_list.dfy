/**
 * The property manager's issue table (`src/components/property-manager/IssuesList.tsx`):
 * the sort option and filter state it keeps, and the list it displays.
 */
module IssuesList {
  import opened Wrappers
  import opened Seqs
  import opened Types
  import opened PropertyManagerContext

  /** `useState<SortOption>({ field: 'date', direction: 'desc' })`. */
  const InitialSort: SortOption := SortOption(SortByDate, Desc)

  /** `'asc'` and `'desc'` swapped. */
  function Flip(d: Direction): (r: Direction)
    ensures r != d
  {
    if d == Asc then Desc else Asc
  }

  /** The option `toggleSortDirection` sets: the same field, the other direction. */
  function ToggledSort(option: SortOption): (r: SortOption)
    ensures r.field == option.field && r.direction != option.direction
  {
    option.(direction := Flip(option.direction))
  }

  /** Toggling the direction twice gives back the option. */
  lemma ToggleSortTwice(option: SortOption)
    ensures ToggledSort(ToggledSort(option)) == option
  {
  }

  /**
   * The option `changeSortField(field)` sets: on the current field the
   * direction flips; a new field starts descending.
   */
  function ChangedSort(option: SortOption, field: SortField): (r: SortOption)
    ensures r.field == field
    ensures field == option.field ==> r == ToggledSort(option)
    ensures field != option.field ==> r.direction == Desc
  {
    SortOption(field, if option.field == field then Flip(option.direction) else Desc)
  }

  /** The test `f => f.field !== 'status'`. */
  function NotStatusFilter(f: FilterOption): bool {
    f.field != FilterStatus
  }

  /** Its negation, `f.field === 'status'`. */
  function IsStatusFilter(f: FilterOption): bool {
    f.field == FilterStatus
  }

  /** The status filters among `filters`. */
  function StatusFilters(filters: seq<FilterOption>): seq<FilterOption> {
    Filter(filters, IsStatusFilter)
  }

  /**
   * The filter list `applyStatusFilter(status)` sets: the non-status
   * filters in their order, then, unless `status` is "all", one status
   * filter for `status` pushed at the end.
   */
  method ApplyStatusFilterTo(filters: seq<FilterOption>, status: string) returns (newFilters: seq<FilterOption>)
    ensures Filter(newFilters, NotStatusFilter) == Filter(filters, NotStatusFilter)
    ensures status == "all" ==> StatusFilters(newFilters) == []
    ensures status != "all" ==> StatusFilters(newFilters) == [FilterOption(FilterStatus, status)]
    ensures status != "all" ==> newFilters[|newFilters| - 1] == FilterOption(FilterStatus, status)
    ensures IsSubsequence(Filter(filters, NotStatusFilter), newFilters)
  {
    var kept := Filter(filters, NotStatusFilter);
    FilterKeepsAll(kept, NotStatusFilter);
    NoStatusFilterIn(kept);
    newFilters := kept;
    if status != "all" {
      var pushed := FilterOption(FilterStatus, status);
      newFilters := newFilters + [pushed];
      FilterConcat(kept, [pushed], NotStatusFilter);
      FilterCons(pushed, [], NotStatusFilter);
      FilterConcat(kept, [pushed], IsStatusFilter);
      FilterCons(pushed, [], IsStatusFilter);
      SubsequenceOfPrefix(kept, [pushed]);
    } else {
      SubsequenceReflexive(kept);
    }
  }

  /** A list of non-status filters holds no status filter. */
  lemma NoStatusFilterIn(kept: seq<FilterOption>)
    requires forall k :: 0 <= k < |kept| ==> NotStatusFilter(kept[k])
    ensures StatusFilters(kept) == []
  {
  }

  /** A list is a subsequence of itself with more appended. */
  lemma {:induction false} SubsequenceOfPrefix<T>(a: seq<T>, b: seq<T>)
    ensures IsSubsequence(a, a + b)
  {
    if a != [] {
      SubsequenceOfPrefix(a[1..], b);
      assert (a + b)[1..] == a[1..] + b;
    }
  }

  /**
   * `getDisplayedIssues` as written: the filtered list is computed and then
   * dropped, and the result is `sortIssues(sortOption)`, a sort of every issue.
   */
  function DisplayedIssues(issues: seq<Issue>, sortOption: SortOption, filterOptions: seq<FilterOption>): (r: seq<Issue>)
    ensures multiset(r) == multiset(issues)
    ensures forall i, j :: 0 <= i < j < |r| ==> IssueCompare(r[i], r[j], sortOption) <= 0
  {
    var filtered := if |filterOptions| > 0 then FilterIssues(issues, filterOptions) else issues;
    SortIssues(issues, sortOption)
  }

  /** An issue with the given id and status; the other fields are blank. */
  function SampleIssue(id: string, status: Status): Issue {
    Issue(id, "", "", "", "", High, Plumbing, status, 0, None, TimeSlot("", ""), "", None, None, None)
  }

  /** With a "completed" status filter, a pending issue is still displayed. */
  lemma DisplayedIssuesIgnoreFilters()
    ensures SampleIssue("1", Pending) in DisplayedIssues([SampleIssue("1", Pending)], InitialSort, [FilterOption(FilterStatus, "completed")])
    ensures !MatchesAll(SampleIssue("1", Pending), [FilterOption(FilterStatus, "completed")])
  {
    var issue := SampleIssue("1", Pending);
    var filters := [FilterOption(FilterStatus, "completed")];
    var r := DisplayedIssues([issue], InitialSort, filters);
    assert issue in multiset([issue]);
    assert issue in multiset(r);
    assert StatusName(issue.status) != filters[0].value;
    assert !MatchesOption(issue, filters[0]);
  }

  /**
   * The displayed list as intended: the issues meeting every filter (all
   * of them when there is no filter), sorted by the option.
   */
  function FilteredDisplayedIssues(issues: seq<Issue>, sortOption: SortOption, filterOptions: seq<FilterOption>): (r: seq<Issue>)
    ensures forall k :: 0 <= k < |r| ==> MatchesAll(r[k], filterOptions)
    ensures forall x :: multiset(r)[x] == if MatchesAll(x, filterOptions) then multiset(issues)[x] else 0
    ensures filterOptions == [] ==> multiset(r) == multiset(issues)
    ensures forall i, j :: 0 <= i < j < |r| ==> IssueCompare(r[i], r[j], sortOption) <= 0
  {
    var filtered := if |filterOptions| > 0 then FilterIssues(issues, filterOptions) else issues;
    var r := SortIssues(filtered, sortOption);
    forall k | 0 <= k < |r|
      ensures MatchesAll(r[k], filterOptions)
    {
      assert r[k] in multiset(r);
      assert r[k] in multiset(filtered);
      var m :| 0 <= m < |filtered| && filtered[m] == r[k];
    }
    r
  }

  /** The table's own state. */
  class IssuesListView {
    var sortOption: SortOption
    var filterOptions: seq<FilterOption>
    var selectedStatusFilter: string
    var selectedIssue: Option<Issue>

    constructor()
      ensures sortOption == InitialSort && filterOptions == []
      ensures selectedStatusFilter == "all" && selectedIssue == None
    {
      sortOption := InitialSort;
      filterOptions := [];
      selectedStatusFilter := "all";
      selectedIssue := None;
    }

    /** `toggleSortDirection`. */
    method ToggleSortDirection()
      modifies this`sortOption
      ensures sortOption == ToggledSort(old(sortOption))
    {
      sortOption := ToggledSort(sortOption);
    }

    /** `changeSortField`. */
    method ChangeSortField(field: SortField)
      modifies this`sortOption
      ensures sortOption == ChangedSort(old(sortOption), field)
    {
      sortOption := ChangedSort(sortOption, field);
    }

    /** `applyStatusFilter`: records the choice and replaces the status filters. */
    method ApplyStatusFilter(status: string)
      modifies this`selectedStatusFilter, this`filterOptions
      ensures selectedStatusFilter == status
      ensures Filter(filterOptions, NotStatusFilter) == Filter(old(filterOptions), NotStatusFilter)
      ensures status == "all" ==> StatusFilters(filterOptions) == []
      ensures status != "all" ==> StatusFilters(filterOptions) == [FilterOption(FilterStatus, status)]
      ensures status != "all" ==> filterOptions[|filterOptions| - 1] == FilterOption(FilterStatus, status)
    {
      selectedStatusFilter := status;
      filterOptions := ApplyStatusFilterTo(filterOptions, status);
    }

    /** `handleViewIssue`. */
    method ViewIssue(issue: Issue)
      modifies this`selectedIssue
      ensures selectedIssue == Some(issue)
    {
      selectedIssue := Some(issue);
    }

    /** `handleCloseIssueDetails`. */
    method CloseIssueDetails()
      modifies this`selectedIssue
      ensures selectedIssue == None
    {
      selectedIssue := None;
    }
  }
}
