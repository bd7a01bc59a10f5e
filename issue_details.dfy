/**
 * The property manager's view of one issue
 * (`src/components/property-manager/IssueDetails.tsx`): the buttons each
 * status offers, the contractor-assignment form with its `start-end` slot
 * values, and the handlers that call into the property-manager store.
 */
module IssueDetails {
  import opened Wrappers
  import opened Seqs
  import opened Strings
  import opened Types
  import opened PropertyManagerContext

  /** A slot as the time-slot select writes it, `${start}-${end}`. */
  function EncodeSlot(slot: TimeSlot): (r: string)
    ensures |r| == |slot.start| + 1 + |slot.end|
    ensures r[..|slot.start|] == slot.start && r[|slot.start|] == '-' && r[|slot.start| + 1..] == slot.end
  {
    slot.start + "-" + slot.end
  }

  /**
   * The slot the select's handler builds, `const [start, end] = value.split('-')`:
   * the parts before and after the first '-'. A value without '-' has no
   * second part; its end is the empty string here.
   */
  function DecodeSlot(value: string): (r: TimeSlot)
    ensures '-' !in r.start && '-' !in r.end
  {
    var parts := Split(value, '-');
    TimeSlot(parts[0], if |parts| > 1 then parts[1] else "")
  }

  /** Decoding an encoded slot gives it back exactly when neither time contains '-'. */
  lemma DecodeEncodeSlot(slot: TimeSlot)
    ensures DecodeSlot(EncodeSlot(slot)) == slot <==> ('-' !in slot.start && '-' !in slot.end)
  {
    if '-' !in slot.start && '-' !in slot.end {
      assert EncodeSlot(slot) == slot.start + ['-'] + slot.end;
      SplitAtFirst(slot.start, '-', slot.end);
      SplitWithoutSeparator(slot.end, '-');
    }
  }

  /** The test `c => c.contractorId === selectedContractorId`. */
  function HasContractorId(contractorId: string): ContractorAvailability -> bool {
    (c: ContractorAvailability) => c.contractorId == contractorId
  }

  /**
   * `getAvailableTimeSlots`: nothing unless a contractor and a date are
   * selected; then the slots of the first availability entry for that
   * contractor, or nothing when there is none.
   */
  function SlotsFor(contractorId: string, date: Option<Day>, available: seq<ContractorAvailability>): (r: seq<TimeSlot>)
    ensures contractorId == "" || date.None? ==> r == []
    ensures (forall k :: 0 <= k < |available| ==> available[k].contractorId != contractorId) ==> r == []
    ensures contractorId != "" && date.Some? && (exists k :: 0 <= k < |available| && available[k].contractorId == contractorId) ==>
      exists k ::
        && 0 <= k < |available|
        && available[k].contractorId == contractorId
        && available[k].slots == r
        && forall j :: 0 <= j < k ==> available[j].contractorId != contractorId
  {
    if contractorId == "" || date.None? then []
    else
      match Find(available, HasContractorId(contractorId))
      case None => []
      case Some(c) => c.slots
  }

  /** The call `handleAssignContractor` makes into the store. */
  datatype Dispatch = NoCall | Assign | Reassign

  /**
   * The guard and dispatch of `handleAssignContractor`: no call when the
   * contractor, the date or the slot start is missing; otherwise a
   * reassignment for an assigned or in-progress issue, an assignment for
   * any other.
   */
  function DispatchFor(contractorId: string, date: Option<Day>, slot: TimeSlot, status: Status): (r: Dispatch)
    ensures r == NoCall <==> (contractorId == "" || date.None? || slot.start == "")
    ensures r == Reassign <==> r != NoCall && (status == Assigned || status == InProgress)
    ensures r == Assign <==> r != NoCall && status != Assigned && status != InProgress
  {
    if contractorId == "" || date.None? || slot.start == "" then NoCall
    else if status == Assigned || status == InProgress then Reassign
    else Assign
  }

  /** The assign button: `disabled={!selectedContractorId || !selectedTimeSlot.start}`. */
  predicate AssignEnabled(contractorId: string, slot: TimeSlot)
    ensures !AssignEnabled(contractorId, slot) ==>
      forall date, status :: DispatchFor(contractorId, date, slot, status) == NoCall
    ensures AssignEnabled(contractorId, slot) ==>
      forall date: Day, status :: DispatchFor(contractorId, Some(date), slot, status) != NoCall
  {
    contractorId != "" && slot.start != ""
  }

  /**
   * The button and the guard agree except on the date, which the button
   * does not check: a press reaches the store exactly when the button is
   * enabled and a date is selected.
   */
  lemma AssignEnabledDispatches(contractorId: string, date: Option<Day>, slot: TimeSlot, status: Status)
    ensures DispatchFor(contractorId, date, slot, status) != NoCall <==> AssignEnabled(contractorId, slot) && date.Some?
    ensures !AssignEnabled(contractorId, slot) ==> DispatchFor(contractorId, date, slot, status) == NoCall
  {
  }

  /** The footer buttons, `Assign Contractor` and `Reassign` opening the form. */
  datatype Action = Acknowledge | OpenAssignForm | OpenReassignForm | MarkInProgress | MarkCompleted

  /** The footer buttons shown for a status, in their order. */
  function OfferedActions(status: Status, showForm: bool): (r: seq<Action>)
    ensures Acknowledge in r <==> status == Pending
    ensures OpenAssignForm in r <==> status == Acknowledged && !showForm
    ensures OpenReassignForm in r <==> (status == Assigned || status == InProgress) && !showForm
    ensures MarkInProgress in r <==> status == Assigned
    ensures MarkCompleted in r <==> status == InProgress
  {
    (if status == Pending then [Acknowledge] else [])
    + (if status == Acknowledged && !showForm then [OpenAssignForm] else [])
    + (if (status == Assigned || status == InProgress) && !showForm then [OpenReassignForm] else [])
    + (if status == Assigned then [MarkInProgress] else [])
    + (if status == InProgress then [MarkCompleted] else [])
  }

  /** The status an action leaves the issue in; the two form buttons lead to an assignment. */
  function ActionOutcome(a: Action): IssueStatus {
    match a
    case Acknowledge => Acknowledged
    case OpenAssignForm => Assigned
    case OpenReassignForm => Assigned
    case MarkInProgress => InProgress
    case MarkCompleted => Completed
  }

  /** The next status along pending, acknowledged, assigned, in progress, completed. */
  function NextStatus(s: Status): Option<IssueStatus> {
    match s
    case Pending => Some(Acknowledged)
    case Acknowledged => Some(Assigned)
    case Assigned => Some(InProgress)
    case InProgress => Some(Completed)
    case _ => None
  }

  /** The store update an action ends in (an assignment for the form buttons). */
  function ApplyAction(issues: seq<Issue>, issueId: string, a: Action, date: Day, slot: TimeSlot): seq<Issue> {
    match a
    case Acknowledge => WithStatus(issues, issueId, Acknowledged)
    case OpenAssignForm => WithAssignment(issues, issueId, date, slot)
    case OpenReassignForm => WithAssignment(issues, issueId, date, slot)
    case MarkInProgress => WithStatus(issues, issueId, InProgress)
    case MarkCompleted => WithStatus(issues, issueId, Completed)
  }

  /** After an action the issue with that id has the action's outcome status; other issues are untouched. */
  lemma ActionSetsOutcome(issues: seq<Issue>, issueId: string, a: Action, date: Day, slot: TimeSlot)
    ensures |ApplyAction(issues, issueId, a, date, slot)| == |issues|
    ensures forall k :: 0 <= k < |issues| && issues[k].id == issueId ==>
      ApplyAction(issues, issueId, a, date, slot)[k].status == ActionOutcome(a)
    ensures forall k :: 0 <= k < |issues| && issues[k].id != issueId ==>
      ApplyAction(issues, issueId, a, date, slot)[k] == issues[k]
  {
  }

  /**
   * Every offered action but a reassignment moves the issue one step along
   * the lifecycle; a reassignment (of an assigned or in-progress issue)
   * leaves it assigned.
   */
  lemma OfferedActionsAdvance(status: Status, showForm: bool, a: Action)
    requires a in OfferedActions(status, showForm)
    ensures a != OpenReassignForm ==> NextStatus(status) == Some(ActionOutcome(a))
    ensures a == OpenReassignForm ==> ActionOutcome(a) == Assigned && (status == Assigned || status == InProgress)
  {
  }

  /** With the form closed, every status that has a next step offers an action that reaches it. */
  lemma NextStepOffered(status: Status)
    requires NextStatus(status).Some?
    ensures exists k ::
      && 0 <= k < |OfferedActions(status, false)|
      && ActionOutcome(OfferedActions(status, false)[k]) == NextStatus(status).value
  {
    var r := OfferedActions(status, false);
    var a := match status
      case Pending => Acknowledge
      case Acknowledged => OpenAssignForm
      case Assigned => MarkInProgress
      case _ => MarkCompleted;
    assert a in r;
    var k :| 0 <= k < |r| && r[k] == a;
  }

  /** Completed, cancelled and scheduled issues offer no action at all. */
  lemma TerminalOffersNothing(status: Status, showForm: bool)
    requires NextStatus(status).None?
    ensures OfferedActions(status, showForm) == []
  {
  }

  /** `issue.scheduledDate || new Date()`: the initial date of the form. */
  function InitialDate(issue: Issue, today: Day): Day {
    if issue.scheduledDate.Some? then issue.scheduledDate.value else today
  }

  /** The component's state around one issue; `closed` records a call of `onClose`. */
  class IssueDetailsView {
    const issue: Issue
    const store: PropertyManagerStore
    var selectedDate: Option<Day>
    var selectedTrade: TradeType
    var selectedContractorId: string
    var selectedTimeSlot: TimeSlot
    var showAssignmentForm: bool
    var closed: bool

    constructor (issue: Issue, store: PropertyManagerStore, today: Day)
      ensures this.issue == issue && this.store == store
      ensures selectedDate == Some(InitialDate(issue, today))
      ensures selectedTrade == issue.category
      ensures selectedContractorId == "" && selectedTimeSlot == TimeSlot("", "")
      ensures !showAssignmentForm && !closed
    {
      this.issue := issue;
      this.store := store;
      selectedDate := Some(InitialDate(issue, today));
      selectedTrade := issue.category;
      selectedContractorId := "";
      selectedTimeSlot := TimeSlot("", "");
      showAssignmentForm := false;
      closed := false;
    }

    /** `availableContractors`: asked of the store only when a date is selected. */
    method AvailableContractors() returns (r: seq<ContractorAvailability>)
      ensures selectedDate.None? ==> r == []
      ensures |r| <= 1
      ensures |r| == 1 <==>
        && selectedDate.Some?
        && |store.contractors.GetAvailabilityForDate(selectedDate.value)| > 0
        && TradeName(selectedTrade) == store.contractors.contractor.trade
      ensures forall k :: 0 <= k < |r| ==> r[k] == ContractorAvailability(
        store.contractors.contractor.id, store.contractors.contractor.name, store.contractors.contractor.trade,
        selectedDate.value, store.contractors.GetAvailabilityForDate(selectedDate.value))
    {
      if selectedDate.None? {
        return [];
      }
      r := store.GetAvailableContractors(selectedDate.value, Some(selectedTrade));
    }

    /** `getAvailableTimeSlots`, over the store's available contractors. */
    method GetAvailableTimeSlots() returns (r: seq<TimeSlot>)
      ensures selectedContractorId == "" || selectedDate.None? ==> r == []
      ensures r != [] ==>
        && selectedContractorId == store.contractors.contractor.id
        && r == store.contractors.GetAvailabilityForDate(selectedDate.value)
      ensures r != [] <==>
        && selectedContractorId != "" && selectedDate.Some?
        && selectedContractorId == store.contractors.contractor.id
        && TradeName(selectedTrade) == store.contractors.contractor.trade
        && store.contractors.GetAvailabilityForDate(selectedDate.value) != []
      ensures (selectedContractorId != "" && selectedDate.Some?
               && selectedContractorId == store.contractors.contractor.id
               && TradeName(selectedTrade) == store.contractors.contractor.trade) ==>
        r == store.contractors.GetAvailabilityForDate(selectedDate.value)
    {
      var available := AvailableContractors();
      r := SlotsFor(selectedContractorId, selectedDate, available);
      if r != [] {
        var k :| 0 <= k < |available| && available[k].contractorId == selectedContractorId && available[k].slots == r;
      }
    }

    /** `handleAcknowledge`. */
    method HandleAcknowledge()
      modifies store`issues, this`closed
      ensures store.issues == WithStatus(old(store.issues), issue.id, Acknowledged)
      ensures closed
    {
      store.AcknowledgeIssue(issue.id);
      closed := true;
    }

    /** `handleMarkInProgress`. */
    method HandleMarkInProgress()
      modifies store`issues, this`closed
      ensures store.issues == WithStatus(old(store.issues), issue.id, InProgress)
      ensures closed
    {
      store.MarkIssueInProgress(issue.id);
      closed := true;
    }

    /** `handleMarkCompleted`. */
    method HandleMarkCompleted()
      modifies store`issues, store`propertyManager, this`closed
      ensures store.issues == WithStatus(old(store.issues), issue.id, Completed)
      ensures store.propertyManager ==
        old(store.propertyManager).(activeIssues := FlooredDecrement(old(store.propertyManager.activeIssues)))
      ensures closed
    {
      store.MarkIssueCompleted(issue.id);
      closed := true;
    }

    /**
     * `handleAssignContractor`: with a contractor, a date and a slot start
     * chosen it calls the store (reassign or assign, both of which record
     * the date and the slot), hides the form and closes; otherwise nothing
     * changes.
     */
    method HandleAssignContractor() returns (call: Dispatch)
      modifies store`issues, this`showAssignmentForm, this`closed
      ensures call == DispatchFor(selectedContractorId, selectedDate, selectedTimeSlot, issue.status)
      ensures call == NoCall ==>
        && store.issues == old(store.issues)
        && showAssignmentForm == old(showAssignmentForm)
        && closed == old(closed)
      ensures call != NoCall ==>
        && store.issues == WithAssignment(old(store.issues), issue.id, selectedDate.value, selectedTimeSlot)
        && !showAssignmentForm
        && closed
    {
      call := DispatchFor(selectedContractorId, selectedDate, selectedTimeSlot, issue.status);
      if call == NoCall {
        return;
      }
      if call == Reassign {
        store.ReassignIssue(issue.id, selectedContractorId, selectedDate.value, selectedTimeSlot);
      } else {
        store.AssignContractorToIssue(issue.id, selectedContractorId, selectedDate.value, selectedTimeSlot);
      }
      showAssignmentForm := false;
      closed := true;
    }

    /** The footer's `Assign Contractor` or `Reassign` button. */
    method OpenAssignmentForm()
      modifies this`showAssignmentForm
      ensures showAssignmentForm
    {
      showAssignmentForm := true;
    }

    /** The form's `Cancel` button. */
    method CancelAssignmentForm()
      modifies this`showAssignmentForm
      ensures !showAssignmentForm
    {
      showAssignmentForm := false;
    }

    /** The trade select. */
    method SelectTrade(trade: TradeType)
      modifies this`selectedTrade
      ensures selectedTrade == trade
    {
      selectedTrade := trade;
    }

    /** The calendar; it may clear the date. */
    method SelectDate(date: Option<Day>)
      modifies this`selectedDate
      ensures selectedDate == date
    {
      selectedDate := date;
    }

    /** The contractor select. */
    method SelectContractor(contractorId: string)
      modifies this`selectedContractorId
      ensures selectedContractorId == contractorId
    {
      selectedContractorId := contractorId;
    }

    /** The time-slot select: the chosen value decoded back into a slot. */
    method SelectTimeSlot(value: string)
      modifies this`selectedTimeSlot
      ensures selectedTimeSlot == DecodeSlot(value)
    {
      selectedTimeSlot := DecodeSlot(value);
    }
  }
}
