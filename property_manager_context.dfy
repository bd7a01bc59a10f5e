/**
 * The property manager's store (`src/context/PropertyManagerContext.tsx`):
 * the issue list and its workflow updates, the queries over the current
 * issue list (by field, sort, multi-filter) and the availability lookup
 * through the contractor store.
 */
module PropertyManagerContext {
  import opened Wrappers
  import opened Seqs
  import opened Strings
  import opened Types
  import ContractorContext
  import Sorting

  // ---------------------------------------------------------------------
  // Queries over the current issue list

  /** `getIssuesByStatus`: the issues with that status, in list order. */
  function IssuesByStatus(issues: seq<Issue>, status: IssueStatus): (r: seq<Issue>)
    ensures forall k :: 0 <= k < |r| ==> r[k].status == status
    ensures IsSubsequence(r, issues)
    ensures forall x :: multiset(r)[x] == if x.status == status then multiset(issues)[x] else 0
  {
    Filter(issues, (i: Issue) => i.status == status)
  }

  /** `getIssuesByPriority`: the issues with that urgency, in list order. */
  function IssuesByPriority(issues: seq<Issue>, priority: Priority): (r: seq<Issue>)
    ensures forall k :: 0 <= k < |r| ==> r[k].urgency == priority
    ensures IsSubsequence(r, issues)
    ensures forall x :: multiset(r)[x] == if x.urgency == priority then multiset(issues)[x] else 0
  {
    Filter(issues, (i: Issue) => i.urgency == priority)
  }

  /** No issue has urgency `'urgent'`, so asking for it yields nothing. */
  lemma NoUrgentIssues(issues: seq<Issue>)
    ensures IssuesByPriority(issues, Urgent) == []
  {
  }

  /** `getIssuesByProperty`: the issues of that property, in list order. */
  function IssuesByProperty(issues: seq<Issue>, propertyId: string): (r: seq<Issue>)
    ensures forall k :: 0 <= k < |r| ==> r[k].propertyId == propertyId
    ensures IsSubsequence(r, issues)
    ensures forall x :: multiset(r)[x] == if x.propertyId == propertyId then multiset(issues)[x] else 0
  {
    Filter(issues, (i: Issue) => i.propertyId == propertyId)
  }

  /** `getPropertyById`: the first property with the id, or none. */
  function PropertyById(properties: seq<Property>, propertyId: string): (r: Option<Property>)
    ensures r.None? <==> forall k :: 0 <= k < |properties| ==> properties[k].id != propertyId
    ensures r.Some? ==> r.value.id == propertyId
    ensures r.Some? ==> exists k ::
              && 0 <= k < |properties| && properties[k] == r.value
              && forall j :: 0 <= j < k ==> properties[j].id != propertyId
  {
    Find(properties, (p: Property) => p.id == propertyId)
  }

  // ---------------------------------------------------------------------
  // Sorting

  /** `priorityMap`. */
  function PriorityRank(p: Priority): int {
    match p
    case Urgent => 0
    case High => 1
    case Normal => 2
    case Low => 3
  }

  /** The comparison of one sort field, before the direction is applied. */
  function FieldCompare(a: Issue, b: Issue, field: SortField): int {
    match field
    case SortByDate => a.createdAt - b.createdAt
    case SortByPriority => PriorityRank(a.urgency) - PriorityRank(b.urgency)
    case SortByProperty => CompareStrings(a.propertyId, b.propertyId)
    case SortByStatus => CompareStrings(StatusName(a.status), StatusName(b.status))
  }

  /** The comparator `sortIssues` hands to `Array.prototype.sort`. */
  function IssueCompare(a: Issue, b: Issue, option: SortOption): int {
    var comparison := FieldCompare(a, b, option.field);
    if option.direction == Asc then comparison else -comparison
  }

  lemma CompareAntisymmetric(a: Issue, b: Issue, option: SortOption)
    ensures IssueCompare(b, a, option) == -IssueCompare(a, b, option)
  {
    match option.field
    case SortByProperty => CompareStringsAntisymmetric(a.propertyId, b.propertyId);
    case SortByStatus => CompareStringsAntisymmetric(StatusName(a.status), StatusName(b.status));
    case _ =>
  }

  lemma CompareTransitive(a: Issue, b: Issue, c: Issue, option: SortOption)
    requires IssueCompare(a, b, option) <= 0 && IssueCompare(b, c, option) <= 0
    ensures IssueCompare(a, c, option) <= 0
  {
    if option.direction == Asc {
      match option.field
      case SortByProperty => CompareStringsTransitive(a.propertyId, b.propertyId, c.propertyId);
      case SortByStatus => CompareStringsTransitive(StatusName(a.status), StatusName(b.status), StatusName(c.status));
      case _ =>
    } else {
      CompareAntisymmetric(a, b, option);
      CompareAntisymmetric(b, c, option);
      CompareAntisymmetric(a, c, option);
      match option.field
      case SortByProperty => CompareStringsTransitive(c.propertyId, b.propertyId, a.propertyId);
      case SortByStatus => CompareStringsTransitive(StatusName(c.status), StatusName(b.status), StatusName(a.status));
      case _ =>
    }
  }

  /** The comparator as a function value, as handed to `[...issues].sort`. */
  function IssueComparator(option: SortOption): (Issue, Issue) -> int {
    (a: Issue, b: Issue) => IssueCompare(a, b, option)
  }

  /** Every sort option orders the issues consistently. */
  lemma IssueComparatorConsistent(option: SortOption)
    ensures Sorting.IsComparator(IssueComparator(option))
  {
    var cmp := IssueComparator(option);
    forall a: Issue, b: Issue
      ensures Sorting.AntisymmetricAt(cmp, a, b)
    {
      CompareAntisymmetric(a, b, option);
    }
    forall a: Issue, b: Issue, c: Issue
      ensures Sorting.TransitiveAt(cmp, a, b, c)
    {
      if cmp(a, b) <= 0 && cmp(b, c) <= 0 {
        CompareTransitive(a, b, c, option);
      }
    }
  }

  /**
   * `sortIssues`: a sorted copy of the issue list; the list itself is a
   * value and is not changed. `Array.prototype.sort` is stable, and so is
   * the insertion sort that models it.
   */
  function SortIssues(issues: seq<Issue>, option: SortOption): (r: seq<Issue>)
    ensures multiset(r) == multiset(issues)
    ensures |r| == |issues|
    ensures forall i, j :: 0 <= i < j < |r| ==> IssueCompare(r[i], r[j], option) <= 0
  {
    IssueComparatorConsistent(option);
    Sorting.SortBySorted(issues, IssueComparator(option));
    var r := Sorting.SortBy(issues, IssueComparator(option));
    assert |r| == |multiset(r)| == |multiset(issues)| == |issues|;
    r
  }

  /**
   * The sort is stable: the issues that compare equal to any `y` appear in
   * the sorted list in the order they had in `issues`.
   */
  lemma SortIssuesStable(issues: seq<Issue>, y: Issue, option: SortOption)
    ensures Sorting.EquivalentTo(SortIssues(issues, option), y, IssueComparator(option))
         == Sorting.EquivalentTo(issues, y, IssueComparator(option))
  {
    IssueComparatorConsistent(option);
    Sorting.SortByStable(issues, y, IssueComparator(option));
  }

  // ---------------------------------------------------------------------
  // Filtering

  /** One `FilterOption` as `filterIssues` tests it. */
  predicate MatchesOption(issue: Issue, option: FilterOption) {
    match option.field
    case FilterStatus => StatusName(issue.status) == option.value
    case FilterPriority => PriorityName(issue.urgency) == option.value
    case FilterTrade => TradeName(issue.category) == option.value
    case FilterProperty => issue.propertyId == option.value
  }

  /** `options.every(...)`. */
  predicate MatchesAll(issue: Issue, options: seq<FilterOption>) {
    forall k :: 0 <= k < |options| ==> MatchesOption(issue, options[k])
  }

  /** The test `filterIssues` hands to `Array.prototype.filter`. */
  function MatchesAllPred(options: seq<FilterOption>): Issue -> bool {
    i => MatchesAll(i, options)
  }

  /** `filterIssues`: no options gives the list itself, otherwise the issues meeting every option. */
  function FilterIssues(issues: seq<Issue>, options: seq<FilterOption>): (r: seq<Issue>)
    ensures options == [] ==> r == issues
    ensures forall k :: 0 <= k < |r| ==> MatchesAll(r[k], options)
    ensures IsSubsequence(r, issues)
    ensures forall x :: multiset(r)[x] == if MatchesAll(x, options) then multiset(issues)[x] else 0
  {
    if |options| == 0 then
      SubsequenceReflexive(issues);
      issues
    else Filter(issues, MatchesAllPred(options))
  }

  /** Meeting a concatenation of options is meeting both parts. */
  lemma MatchesAllConcat(issue: Issue, a: seq<FilterOption>, b: seq<FilterOption>)
    ensures MatchesAll(issue, a + b) == (MatchesAll(issue, a) && MatchesAll(issue, b))
  {
    if MatchesAll(issue, a) && MatchesAll(issue, b) {
      forall m | 0 <= m < |a + b|
        ensures MatchesOption(issue, (a + b)[m])
      {
        if m >= |a| {
          assert (a + b)[m] == b[m - |a|];
        }
      }
    }
    if MatchesAll(issue, a + b) {
      forall m | 0 <= m < |b|
        ensures MatchesOption(issue, b[m])
      {
        assert (a + b)[|a| + m] == b[m];
      }
      forall m | 0 <= m < |a|
        ensures MatchesOption(issue, a[m])
      {
        assert (a + b)[m] == a[m];
      }
    }
  }

  /** Filtering by a concatenation of options is filtering by each part in turn. */
  lemma FilterIssuesConjunction(issues: seq<Issue>, a: seq<FilterOption>, b: seq<FilterOption>)
    ensures FilterIssues(issues, a + b) == FilterIssues(FilterIssues(issues, a), b)
  {
    if a == [] {
      assert a + b == b;
    } else if b == [] {
      assert a + b == a;
    } else {
      var pa, pb := MatchesAllPred(a), MatchesAllPred(b);
      FilterFilter(issues, pa, pb);
      forall k | 0 <= k < |issues|
        ensures MatchesAllPred(a + b)(issues[k]) == Both(pa, pb)(issues[k])
      {
        MatchesAllConcat(issues[k], a, b);
      }
      FilterCongruent(issues, MatchesAllPred(a + b), Both(pa, pb));
    }
  }

  // ---------------------------------------------------------------------
  // Workflow updates

  /** `prevIssues.map(...)` of `updateIssueStatus`: only issues with the id change, and only their status. */
  function WithStatus(issues: seq<Issue>, issueId: string, status: IssueStatus): (r: seq<Issue>)
    ensures |r| == |issues|
    ensures forall k :: 0 <= k < |issues| && issues[k].id == issueId ==> r[k] == issues[k].(status := status)
    ensures forall k :: 0 <= k < |issues| && issues[k].id != issueId ==> r[k] == issues[k]
  {
    if issues == [] then []
    else
      var head := if issues[0].id == issueId then issues[0].(status := status) else issues[0];
      [head] + WithStatus(issues[1..], issueId, status)
  }

  /** `prevIssues.map(...)` of `assignContractorToIssue`: status, date and slot of the issues with the id. */
  function WithAssignment(issues: seq<Issue>, issueId: string, date: Day, timeSlot: TimeSlot): (r: seq<Issue>)
    ensures |r| == |issues|
    ensures forall k :: 0 <= k < |issues| && issues[k].id == issueId ==>
      r[k] == issues[k].(status := Assigned, scheduledDate := Some(date), timeSlot := timeSlot)
    ensures forall k :: 0 <= k < |issues| && issues[k].id != issueId ==> r[k] == issues[k]
  {
    if issues == [] then []
    else
      var head := if issues[0].id == issueId
        then issues[0].(status := Assigned, scheduledDate := Some(date), timeSlot := timeSlot)
        else issues[0];
      [head] + WithAssignment(issues[1..], issueId, date, timeSlot)
  }

  class PropertyManagerStore {
    var propertyManager: PropertyManager
    var properties: seq<Property>
    var issues: seq<Issue>
    /** The contractor store this provider reads availability from. */
    const contractors: ContractorContext.ContractorStore

    constructor (propertyManager: PropertyManager, properties: seq<Property>, issues: seq<Issue>,
                 contractors: ContractorContext.ContractorStore)
      ensures this.propertyManager == propertyManager && this.properties == properties
      ensures this.issues == issues && this.contractors == contractors
    {
      this.propertyManager := propertyManager;
      this.properties := properties;
      this.issues := issues;
      this.contractors := contractors;
    }

    /** `updateIssueStatus`. */
    method UpdateIssueStatus(issueId: string, status: IssueStatus)
      modifies this`issues
      ensures issues == WithStatus(old(issues), issueId, status)
    {
      issues := WithStatus(issues, issueId, status);
    }

    /** `acknowledgeIssue`. */
    method AcknowledgeIssue(issueId: string)
      modifies this`issues
      ensures issues == WithStatus(old(issues), issueId, Acknowledged)
    {
      UpdateIssueStatus(issueId, Acknowledged);
    }

    /** `markIssueInProgress`. */
    method MarkIssueInProgress(issueId: string)
      modifies this`issues
      ensures issues == WithStatus(old(issues), issueId, InProgress)
    {
      UpdateIssueStatus(issueId, InProgress);
    }

    /** `markIssueCompleted`: also lowers the active-issue count, never below zero. */
    method MarkIssueCompleted(issueId: string)
      modifies this`issues, this`propertyManager
      ensures issues == WithStatus(old(issues), issueId, Completed)
      ensures propertyManager == old(propertyManager).(activeIssues := FlooredDecrement(old(propertyManager.activeIssues)))
      ensures propertyManager.activeIssues >= 0
    {
      UpdateIssueStatus(issueId, Completed);
      propertyManager := propertyManager.(activeIssues := FlooredDecrement(propertyManager.activeIssues));
    }

    /** `assignContractorToIssue`: the contractor id is not recorded on the issue. */
    method AssignContractorToIssue(issueId: string, contractorId: string, date: Day, timeSlot: TimeSlot)
      modifies this`issues
      ensures issues == WithAssignment(old(issues), issueId, date, timeSlot)
    {
      issues := WithAssignment(issues, issueId, date, timeSlot);
    }

    /** `reassignIssue`: the same update as `assignContractorToIssue`. */
    method ReassignIssue(issueId: string, contractorId: string, date: Day, timeSlot: TimeSlot)
      modifies this`issues
      ensures issues == WithAssignment(old(issues), issueId, date, timeSlot)
    {
      AssignContractorToIssue(issueId, contractorId, date, timeSlot);
    }

    /**
     * `getAvailableContractors`: the one known contractor, if it has slots
     * on that day and, when a trade is asked for, has that trade.
     */
    method GetAvailableContractors(date: Day, tradeType: Option<TradeType>) returns (r: seq<ContractorAvailability>)
      ensures |r| <= 1
      ensures |r| == 1 <==>
                && |contractors.GetAvailabilityForDate(date)| > 0
                && (tradeType.Some? ==> TradeName(tradeType.value) == contractors.contractor.trade)
      ensures forall k :: 0 <= k < |r| ==> r[k] == ContractorAvailability(
        contractors.contractor.id, contractors.contractor.name, contractors.contractor.trade,
        date, contractors.GetAvailabilityForDate(date))
    {
      var availabilities: seq<ContractorAvailability> := [];
      var slots := contractors.GetAvailabilityForDate(date);
      if |slots| > 0 {
        var c := contractors.contractor;
        availabilities := availabilities + [ContractorAvailability(c.id, c.name, c.trade, date, slots)];
      }
      if tradeType.Some? {
        var wanted := TradeName(tradeType.value);
        r := Filter(availabilities, (a: ContractorAvailability) => a.trade == wanted);
        if |availabilities| == 1 {
          assert availabilities == [availabilities[0]];
          assert r == if availabilities[0].trade == wanted then availabilities else [];
        }
        return r;
      }
      return availabilities;
    }
  }
}
