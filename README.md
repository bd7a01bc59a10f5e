# Maintenance-ticket front end: a Dafny model

This project models the client-side core of a property-maintenance web app. The app has three sides:

- **Tenant.** A tenant describes a problem in an intake form. The form looks for emergency keywords, guesses a repair category and holds a scripted "assistant" conversation.
- **Property manager.** A property manager lists, sorts and filters the reported issues. They open one issue to acknowledge it, assign or reassign a contractor for a date and time slot, and move it through its lifecycle.
- **Contractor.** A contractor publishes hourly availability per day and schedules or completes jobs.

The two React context providers hold the application state. They become classes whose fields are that state:

- `ContractorContext.ContractorStore` holds the contractor, the jobs and the availability map.
- `PropertyManagerContext.PropertyManagerStore` holds the manager, the properties and the issues.

Each component's `useState` fields likewise become a class: `IssueForm.IssueFormState`, `IssuesList.IssuesListView` and `IssueDetails.IssueDetailsView`. Their handlers become methods. Each method's `ensures` pins down every field it may modify, as a function of the old state.

The pure computations become functions, and lemmas state their properties. These computations are:

- the `filter`/`find`/`sort` queries;
- keyword and category detection;
- the status-to-button mapping;
- time-slot end times;
- the `start-end` slot encoding.

Support modules:

- `Wrappers`: `Option`.
- `Seqs`: `filter`/`find` with their contracts.
- `Strings`: ASCII `toLowerCase`, `includes`, `split`, `parseInt`, number formatting, `padStart` and an ordinal `localeCompare`.
- `Sorting`: a stable insertion sort over a comparator, standing for `Array.prototype.sort`, which is stable.
- `Types`: the records of `src/types/contractor.ts` and `src/types/property-manager.ts`.

Dates are whole day numbers (`Day`), and `dateToKey` is the identity on them. `createdAt` is an integer timestamp. "Now" (`new Date()`) is passed in as a `today` parameter.

The callbacks that finish after a timeout (`setTimeout` in `handleSubmit`, `handleAIAnalysis` and `handleUserResponse`) are modelled by their final state, reached at once.

The code and its comments disagree in one place. The issue list comments promise a filtered and sorted list, but the code sorts every issue. The model follows the code and records the discrepancy under Findings.

## Model

| member | source | states |
|---|---|---|
| ContractorContext.SlotsOnAfterWrite | src/context/ContractorContext.tsx:73-85 | after storing slots for a day, that day reads back the slots and every other day reads what it read before |
| ContractorContext.ScheduledJobs | src/context/ContractorContext.tsx:119-124 | same length; each job with the id gets the date, the slot and status `scheduled`; every other job is unchanged |
| ContractorContext.CompletedJobs | src/context/ContractorContext.tsx:131-136 | same length; each job with the id becomes `completed`; every other job is unchanged |
| ContractorContext.ContractorStore.constructor | src/context/ContractorContext.tsx:62-65 | the provider starts with the given contractor and jobs and an empty availability map |
| ContractorContext.ContractorStore.AddAvailability | src/context/ContractorContext.tsx:73-79 | the map gains or replaces the entry for that day; the day reads back the slots and no other day changes |
| ContractorContext.ContractorStore.GetAvailabilityForDate | src/context/ContractorContext.tsx:82-85 | a day with no stored entry reads as no slots; a day with an entry reads exactly its stored slots |
| ContractorContext.ContractorStore.FindNextAvailableSlot | src/context/ContractorContext.tsx:88-116 | a result lies in the 14 days from the start date (given, or today) and is a stored slot with no job at that day and start; no earlier day in the window has a free slot; no result exactly when the window has no free slot |
| ContractorContext.ContractorStore.ScheduleJob | src/context/ContractorContext.tsx:119-129 | the jobs become the schedule update of the old jobs |
| ContractorContext.ContractorStore.CompleteJob | src/context/ContractorContext.tsx:131-145 | the jobs become the completion update; the active-job count drops by one, never below zero |
| Types.FlooredDecrement | src/context/ContractorContext.tsx:141 | `Math.max(0, n - 1)` is never negative; it is `n - 1` when `n` is at least 1 and 0 when `n` is at most 1 |
| PropertyManagerContext.IssuesByStatus | src/context/PropertyManagerContext.tsx:151-153 | an in-order subsequence of the issues with exactly the issues of that status, each as many times as it occurs |
| PropertyManagerContext.IssuesByPriority | src/context/PropertyManagerContext.tsx:156-158 | the same for an urgency |
| PropertyManagerContext.NoUrgentIssues | src/context/PropertyManagerContext.tsx:156-158 | asking for `urgent` gives nothing, since a job's urgency is never `urgent` |
| PropertyManagerContext.IssuesByProperty | src/context/PropertyManagerContext.tsx:161-163 | the same for a property id |
| PropertyManagerContext.PropertyById | src/context/PropertyManagerContext.tsx:166-168 | none exactly when no property has the id; otherwise the first property with the id |
| PropertyManagerContext.CompareAntisymmetric | src/context/PropertyManagerContext.tsx:245-269 | swapping two issues negates the sort comparison, in both directions and for every field |
| PropertyManagerContext.CompareTransitive | src/context/PropertyManagerContext.tsx:245-269 | the comparison is transitive for every field and direction |
| PropertyManagerContext.IssueComparatorConsistent | src/context/PropertyManagerContext.tsx:248-268 | the comparator handed to `sort` is a consistent comparator |
| PropertyManagerContext.SortIssues | src/context/PropertyManagerContext.tsx:245-269 | a permutation of the issues in which no issue sorts after a later one |
| PropertyManagerContext.SortIssuesStable | src/context/PropertyManagerContext.tsx:248 | the sort is stable: issues that compare equal keep their relative order |
| PropertyManagerContext.FilterIssues | src/context/PropertyManagerContext.tsx:272-291 | no options gives all issues; otherwise an in-order subsequence holding exactly the issues that meet every option |
| PropertyManagerContext.MatchesAllConcat | src/context/PropertyManagerContext.tsx:276 | meeting every option of `a + b` is meeting every option of `a` and every option of `b` |
| PropertyManagerContext.FilterIssuesConjunction | src/context/PropertyManagerContext.tsx:272-291 | filtering by `a + b` equals filtering by `a` and then by `b` |
| PropertyManagerContext.WithStatus | src/context/PropertyManagerContext.tsx:171-176 | same length; issues with the id get the status; the others are unchanged |
| PropertyManagerContext.WithAssignment | src/context/PropertyManagerContext.tsx:203-220 | same length; issues with the id become `assigned` with the date and the slot; the others are unchanged |
| PropertyManagerContext.PropertyManagerStore.constructor | src/context/PropertyManagerContext.tsx:142-148 | the provider starts from the given manager, properties and issues, and reads availability from the given contractor store |
| PropertyManagerContext.PropertyManagerStore.UpdateIssueStatus | src/context/PropertyManagerContext.tsx:171-179 | the issues become the status update of the old issues |
| PropertyManagerContext.PropertyManagerStore.AcknowledgeIssue | src/context/PropertyManagerContext.tsx:182-184 | the issue becomes `acknowledged` |
| PropertyManagerContext.PropertyManagerStore.MarkIssueInProgress | src/context/PropertyManagerContext.tsx:187-189 | the issue becomes `in_progress` |
| PropertyManagerContext.PropertyManagerStore.MarkIssueCompleted | src/context/PropertyManagerContext.tsx:192-200 | the issue becomes `completed`; the active-issue count drops by one, never below zero |
| PropertyManagerContext.PropertyManagerStore.AssignContractorToIssue | src/context/PropertyManagerContext.tsx:203-231 | the issues become the assignment update; the contractor id is not stored |
| PropertyManagerContext.PropertyManagerStore.ReassignIssue | src/context/PropertyManagerContext.tsx:234-242 | the same update as an assignment |
| PropertyManagerContext.PropertyManagerStore.GetAvailableContractors | src/context/PropertyManagerContext.tsx:294-325 | at most one entry; there is one exactly when the contractor has slots that day and, if a trade is asked for, has that trade; the entry carries the contractor's id, name, trade, the day and its slots |
| IssueForm.EmergencyKeyword | src/components/IssueForm.tsx:14-59 | none exactly when the lower-cased description contains no emergency keyword; otherwise the first keyword in list order that it contains |
| IssueForm.EmergencyLabel | src/components/IssueForm.tsx:63 | the label of a keyword is the keyword with an upper-case first letter, and lower-casing it gives the keyword back |
| IssueForm.CategoryOf | src/components/IssueForm.tsx:17-123 | none exactly when the lower-cased text contains no keyword of any category; otherwise the name of the first category in table order with a keyword in the text |
| IssueForm.CategoryNeverOther | src/components/IssueForm.tsx:17-24 | "Other Issue" is never detected: it has no keywords |
| IssueForm.DetectCategory | src/components/IssueForm.tsx:113-123 | the loop returns the category the table scan defines |
| IssueForm.AnalysisReply | src/components/IssueForm.tsx:147-169 | an emergency gets the call-911 warning naming the emergency type; otherwise a detected category gets its acknowledgement; otherwise the reply asks when the problem was noticed |
| IssueForm.ReplyTextQuotes | src/components/IssueForm.tsx:151-208 | the emergency warning contains the emergency number to call; the guide offer names the category it offers a guide for |
| IssueForm.ChatBranchOf | src/components/IssueForm.tsx:203-224 | guide words win; submit words apply only without guide words; the solved reply needs solved words |
| IssueForm.SolvedOnlyByWorkingNow | src/components/IssueForm.tsx:203-224 | the solved branch is taken exactly when the message has no guide or submit word and says "working now", because "solved" and "fixed" already contain guide or submit words |
| IssueForm.ChatReply | src/components/IssueForm.tsx:203-244 | the guide offer needs the guide branch and a known category; the guide branch with no known category asks what needs fixing; each other branch gives its own reply; the follow-up reply uses the known category |
| IssueForm.PreviousStep | src/components/IssueForm.tsx:283-289 | back leaves the description and submitted steps alone and otherwise moves exactly one step earlier |
| IssueForm.IssueFormState.constructor | src/components/IssueForm.tsx:28-48 | every field starts at its initial value and nothing is being analysed |
| IssueForm.IssueFormState.ApplyFoundKeyword | src/components/IssueForm.tsx:61-67 | the emergency flag follows the keyword found; a new emergency records the capitalised keyword; a cleared one also clears the call confirmation; otherwise nothing changes |
| IssueForm.IssueFormState.EmergencyEffect | src/components/IssueForm.tsx:54-69 | after the effect the emergency flag agrees with the description; an empty description changes nothing |
| IssueForm.IssueFormState.SetDescription | src/components/IssueForm.tsx:54-69 | the description is stored and the emergency state follows it; a vanished keyword clears the emergency and its confirmation but keeps its label; an emergency not yet confirmed disables analysis |
| IssueForm.IssueFormState.HandleEmergencyCallConfirmed | src/components/IssueForm.tsx:260-262 | the call is confirmed, and analysis is then enabled exactly when the description is non-empty |
| IssueForm.IssueFormState.AnalyzeEnabled | src/components/IssueForm.tsx:321 | analysis needs a non-empty description; an unconfirmed emergency disables it; with no emergency, any non-empty description enables it |
| IssueForm.IssueFormState.AddExchange | src/components/IssueForm.tsx:135-173 | the conversation gains the user's message and then the assistant's reply |
| IssueForm.IssueFormState.RecordCategory | src/components/IssueForm.tsx:141-144 | a detected category is recorded; none keeps the old one |
| IssueForm.IssueFormState.Analyze | src/components/IssueForm.tsx:128-178 | the conversation gains the description and the analysis reply; the category is updated; the step becomes the conversation |
| IssueForm.IssueFormState.HandleAIAnalysis | src/components/IssueForm.tsx:126-178 | a blank description changes nothing; any other is analysed |
| IssueForm.IssueFormState.RecordOutcome | src/components/IssueForm.tsx:210-223 | the guide and solved flags are only ever set, never cleared |
| IssueForm.IssueFormState.HandleUserResponse | src/components/IssueForm.tsx:181-252 | the conversation gains the message and the reply to it, computed from the category as it was before the call; the category is detected only if none was known; the guide and solved flags follow the branch |
| IssueForm.IssueFormState.HandleProceedToDetails | src/components/IssueForm.tsx:255-257 | the step becomes details, whose previous step is the conversation |
| IssueForm.IssueFormState.HandleBack | src/components/IssueForm.tsx:283-289 | the step becomes its previous step |
| IssueForm.IssueFormState.HandleSubmit | src/components/IssueForm.tsx:91-110 | the step becomes submitted |
| IssueForm.IssueFormState.HandleRemoveImage | src/components/IssueForm.tsx:85-88 | the image and its preview are cleared |
| IssueForm.IssueFormState.ResetFormData | src/components/IssueForm.tsx:266-273 | the step, the description, the contact fields and the image are reset |
| IssueForm.IssueFormState.ResetAssistance | src/components/IssueForm.tsx:268-279 | the emergency, category, conversation, guide and solved state are reset |
| IssueForm.IssueFormState.HandleStartOver | src/components/IssueForm.tsx:265-280 | every field but the analysing flag is back at its initial value; analysis is disabled and the emergency state is consistent |
| AvailabilityTimeSlots.OfferedStarts | src/components/contractor/AvailabilityTimeSlots.tsx:8-49 | the picker offers ten rows, from 08:00 to 17:00; 18:00 is never offered |
| AvailabilityTimeSlots.ParseTwoDigitHour | src/components/contractor/AvailabilityTimeSlots.tsx:36-40 | `parseInt` reads any hour back from its two-digit form |
| AvailabilityTimeSlots.EndTime | src/components/contractor/AvailabilityTimeSlots.tsx:36-40 | every end time, including the one for an unparsable hour, ends in ":00" |
| AvailabilityTimeSlots.EndTimeOfHour | src/components/contractor/AvailabilityTimeSlots.tsx:36-40 | the end of a slot starting `HH:mm` is the next hour on the hour, in two digits |
| AvailabilityTimeSlots.TimeSlotStartHour | src/components/contractor/AvailabilityTimeSlots.tsx:8-10 | entry `i` of the table is hour `8 + i` on the hour |
| AvailabilityTimeSlots.OfferedSlotsEndAtNextStart | src/components/contractor/AvailabilityTimeSlots.tsx:8-49 | every offered row ends where the next table entry starts |
| AvailabilityTimeSlots.IsTimeSlotSelected | src/components/contractor/AvailabilityTimeSlots.tsx:42-44 | a start is selected exactly when removing that start's slots would change the list |
| AvailabilityTimeSlots.ToggleTimeSlot | src/components/contractor/AvailabilityTimeSlots.tsx:19-44 | toggling flips whether the start is selected and leaves every other start's selection as it was |
| AvailabilityTimeSlots.FilterKeepsOtherStarts | src/components/contractor/AvailabilityTimeSlots.tsx:28 | removing by start removes every slot with that start and keeps the selection of all other starts |
| AvailabilityTimeSlots.ToggleShape | src/components/contractor/AvailabilityTimeSlots.tsx:24-32 | a selected start is removed, the rest kept in order; an unselected one appends the hour slot from it |
| AvailabilityTimeSlots.ToggleTwiceRestores | src/components/contractor/AvailabilityTimeSlots.tsx:19-34 | toggling an unselected start twice gives back the original list |
| IssuesList.Flip | src/components/property-manager/IssuesList.tsx:39 | the direction always changes |
| IssuesList.ToggledSort | src/components/property-manager/IssuesList.tsx:36-41 | the field stays and the direction changes |
| IssuesList.ToggleSortTwice | src/components/property-manager/IssuesList.tsx:36-41 | toggling twice gives back the sort option |
| IssuesList.ChangedSort | src/components/property-manager/IssuesList.tsx:44-51 | the field is set; picking the current field toggles the direction; a new field starts descending |
| IssuesList.ApplyStatusFilterTo | src/components/property-manager/IssuesList.tsx:54-66 | the non-status filters are kept in order; "all" leaves no status filter; any other status leaves exactly one status filter, at the end |
| IssuesList.NoStatusFilterIn | src/components/property-manager/IssuesList.tsx:62 | a list of non-status filters holds no status filter |
| IssuesList.DisplayedIssues | src/components/property-manager/IssuesList.tsx:69-72 | as written, the displayed list is a sorted permutation of every issue |
| IssuesList.DisplayedIssuesIgnoreFilters | src/components/property-manager/IssuesList.tsx:69-72 | a pending issue is displayed under a "completed" status filter that it fails |
| IssuesList.FilteredDisplayedIssues | src/components/property-manager/IssuesList.tsx:68-72 | as intended: exactly the issues that meet every filter (all when there is none), sorted |
| IssuesList.IssuesListView.constructor | src/components/property-manager/IssuesList.tsx:30-33 | date-descending sort, no filters, status "all", no issue open |
| IssuesList.IssuesListView.ToggleSortDirection | src/components/property-manager/IssuesList.tsx:36-41 | the option becomes the toggled option |
| IssuesList.IssuesListView.ChangeSortField | src/components/property-manager/IssuesList.tsx:44-51 | the option becomes the changed option |
| IssuesList.IssuesListView.ApplyStatusFilter | src/components/property-manager/IssuesList.tsx:54-66 | the chosen status is recorded; the non-status filters are kept in order; "all" leaves no status filter; any other status leaves exactly one status filter, and it is the last entry |
| IssuesList.IssuesListView.ViewIssue | src/components/property-manager/IssuesList.tsx:75-77 | the issue is opened |
| IssuesList.IssuesListView.CloseIssueDetails | src/components/property-manager/IssuesList.tsx:80-82 | no issue is open |
| IssueDetails.DecodeSlot | src/components/property-manager/IssueDetails.tsx:351-354 | neither decoded time contains '-' |
| IssueDetails.EncodeSlot | src/components/property-manager/IssueDetails.tsx:361 | the encoded value is the start, one '-', then the end, with nothing else |
| IssueDetails.DecodeEncodeSlot | src/components/property-manager/IssueDetails.tsx:350-361 | decoding an encoded slot gives it back exactly when neither time contains '-' |
| IssueDetails.SlotsFor | src/components/property-manager/IssueDetails.tsx:76-81 | nothing without a contractor or a date, or with no entry for the contractor; otherwise the slots of the first entry for the contractor |
| IssueDetails.DispatchFor | src/components/property-manager/IssueDetails.tsx:103-114 | no call exactly when the contractor, the date or the slot start is missing; otherwise reassign exactly for an assigned or in-progress issue, assign for any other |
| IssueDetails.AssignEnabled | src/components/property-manager/IssueDetails.tsx:377 | while the button is disabled, the handler calls nothing whatever the date and status; while it is enabled, any chosen date leads to a store call |
| IssueDetails.AssignEnabledDispatches | src/components/property-manager/IssueDetails.tsx:103-106 | a press reaches the store exactly when the assign button is enabled and a date is selected; a disabled button never does |
| IssueDetails.OfferedActions | src/components/property-manager/IssueDetails.tsx:389-442 | acknowledge exactly for pending; assign exactly for acknowledged with the form closed; reassign exactly for assigned or in progress with the form closed; in progress exactly for assigned; completed exactly for in progress |
| IssueDetails.ActionSetsOutcome | src/components/property-manager/IssueDetails.tsx:84-118 | after an action's store call, every issue with the id has that action's status and every other issue is unchanged |
| IssueDetails.OfferedActionsAdvance | src/components/property-manager/IssueDetails.tsx:389-442 | every offered action but reassign moves the issue one step along pending, acknowledged, assigned, in progress, completed; reassign leaves it assigned |
| IssueDetails.NextStepOffered | src/components/property-manager/IssueDetails.tsx:389-442 | with the form closed, every status that has a next step offers an action reaching it |
| IssueDetails.TerminalOffersNothing | src/components/property-manager/IssueDetails.tsx:389-442 | completed, cancelled and scheduled issues offer no action |
| IssueDetails.IssueDetailsView.constructor | src/components/property-manager/IssueDetails.tsx:61-65 | the date starts at the scheduled date or today; the trade at the issue's category; no contractor or slot chosen; form hidden |
| IssueDetails.IssueDetailsView.AvailableContractors | src/components/property-manager/IssueDetails.tsx:71-73 | nothing without a date; at most one entry; there is one exactly when a date is chosen, the contractor has slots that day and has the selected trade; that entry carries the contractor id, name and trade, the day and its slots |
| IssueDetails.IssueDetailsView.GetAvailableTimeSlots | src/components/property-manager/IssueDetails.tsx:76-81 | nothing without a contractor or a date; the result is non-empty exactly when the chosen contractor is the store's contractor, has the selected trade and has slots that day; any slots are that contractor's for the day |
| IssueDetails.IssueDetailsView.HandleAcknowledge | src/components/property-manager/IssueDetails.tsx:84-87 | the issue becomes acknowledged and the view closes |
| IssueDetails.IssueDetailsView.HandleMarkInProgress | src/components/property-manager/IssueDetails.tsx:90-93 | the issue becomes in progress and the view closes |
| IssueDetails.IssueDetailsView.HandleMarkCompleted | src/components/property-manager/IssueDetails.tsx:96-99 | the issue becomes completed; the manager record changes only in its active-issue count, which drops by one and never goes below zero; the view closes |
| IssueDetails.IssueDetailsView.HandleAssignContractor | src/components/property-manager/IssueDetails.tsx:102-118 | nothing changes when the guard fails; otherwise the issue is assigned for the date and slot, the form hides and the view closes |
| IssueDetails.IssueDetailsView.OpenAssignmentForm | src/components/property-manager/IssueDetails.tsx:400-420 | the form is shown |
| IssueDetails.IssueDetailsView.CancelAssignmentForm | src/components/property-manager/IssueDetails.tsx:372 | the form is hidden |
| IssueDetails.IssueDetailsView.SelectTrade | src/components/property-manager/IssueDetails.tsx:287 | the trade is set |
| IssueDetails.IssueDetailsView.SelectDate | src/components/property-manager/IssueDetails.tsx:308 | the date is set or cleared |
| IssueDetails.IssueDetailsView.SelectContractor | src/components/property-manager/IssueDetails.tsx:324 | the contractor is set |
| IssueDetails.IssueDetailsView.SelectTimeSlot | src/components/property-manager/IssueDetails.tsx:351-354 | the slot becomes the decoded value |
| Sorting.SortBySorted | src/context/PropertyManagerContext.tsx:248 | insertion sort under a consistent comparator yields a sorted list |
| Sorting.SortByStable | src/context/PropertyManagerContext.tsx:248 | insertion sort keeps equivalent elements in their original order |
| Strings.CompareStringsAntisymmetric | src/context/PropertyManagerContext.tsx:260-263 | the ordinal comparison standing for `localeCompare` is antisymmetric |
| Strings.CompareStringsTransitive | src/context/PropertyManagerContext.tsx:260-263 | and transitive |
| Strings.SplitJoin | src/components/property-manager/IssueDetails.tsx:352 | `split` inverts joining parts that do not contain the separator |

## Left out

- Rendering, styling and the badge colour tables: presentation only.
- Toasts, `console.log` and the tenant and contractor notifications: output only. The model has no side effects beyond the state fields.
- Timers: the `setTimeout` callbacks are modelled by the final state they reach. The intermediate "analysing" state is seen only in that `HandleUserResponse` and `Analyze` end with it cleared.
- `FileReader` and image upload (`handleImageChange`): browser I/O. Only `handleRemoveImage` is modelled.
- The name, email and phone inputs: plain field writes through `onChange`.
- Dates and `Date` arithmetic, time zones and `toISOString`: a day is an integer and `dateToKey` is the identity. Dates are never formatted for display.
- `new Date()`: passed in as the `today` parameter.
- `toLowerCase`/`toUpperCase`: modelled for ASCII letters only.
- `localeCompare`: modelled as an ordinal comparison. Locale collation is not modelled.
- `parseInt`: modelled as an optional sign followed by decimal digits, read up to the first non-digit. Leading whitespace, other radixes and huge numbers are not modelled.
- `NaN:00`: stands for the output of `getEndTime` when the hour does not parse.
- The mock data tables (`MOCK_CONTRACTOR`, `MOCK_JOBS`, `MOCK_PROPERTIES`, `MOCK_ISSUES`, `MOCK_PROPERTY_MANAGER`): the stores' constructors take their initial contents as parameters.
- React plumbing: the context objects, `useContext` guards and providers' JSX.
- `IssueForm.IssueFormState.HandleUserResponse`: the conversation stores the assistant's replies as `Reply` values. Their wording is given separately by `IssueForm.ReplyText`, and the stored `content` strings are not.
- `IssueDetails.DecodeSlot`: a value without '-' leaves `end` undefined in the source; the model uses the empty string.
- `PropertyManagerContext.PropertyManagerStore.AssignContractorToIssue`: the contractor id is accepted but, as in the source, stored nowhere.

## Findings

| source | as written | input that shows it | evidently intended | confidence | as-written member | corrected member |
|---|---|---|---|---|---|---|
| src/components/property-manager/IssuesList.tsx:69-72 | `getDisplayedIssues` computes the filtered list and then returns `sortIssues(sortOption)`, a sort of all issues, so the status filter has no effect on the table | one pending issue and the status filter "completed": the pending issue is still displayed | sort the filtered list: exactly the issues meeting every filter, in sort order | high (by reading; not executed) | IssuesList.DisplayedIssues, IssuesList.DisplayedIssuesIgnoreFilters | IssuesList.FilteredDisplayedIssues |
