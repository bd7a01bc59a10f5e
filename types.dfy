/**
 * The records of the maintenance front end (`src/types/contractor.ts` and
 * `src/types/property-manager.ts`). Dates are whole day numbers and
 * `createdAt` is a timestamp: the model does not carry clock time.
 */
module Types {
  import opened Wrappers

  /** A calendar day; `dateToKey` of the source is the identity on days. */
  type Day = int
  /** `Date.prototype.getTime()` of a creation time. */
  type Timestamp = int

  datatype TimeSlot = TimeSlot(start: string, end: string)

  /** The statuses a job or an issue can carry; only jobs use `Scheduled`. */
  datatype Status = Pending | Acknowledged | Assigned | InProgress | Completed | Cancelled | Scheduled

  /** `IssueStatus`: every status except the contractor-side `'scheduled'`. */
  type IssueStatus = s: Status | s != Scheduled witness Pending

  function StatusName(s: Status): string {
    match s
    case Pending => "pending"
    case Acknowledged => "acknowledged"
    case Assigned => "assigned"
    case InProgress => "in_progress"
    case Completed => "completed"
    case Cancelled => "cancelled"
    case Scheduled => "scheduled"
  }

  /** `IssuePriority`. */
  datatype Priority = Urgent | High | Normal | Low

  /** The `urgency` of a job or issue: `'high' | 'normal' | 'low'`, never `'urgent'`. */
  type Urgency = p: Priority | p != Urgent witness High

  function PriorityName(p: Priority): string {
    match p
    case Urgent => "urgent"
    case High => "high"
    case Normal => "normal"
    case Low => "low"
  }

  /** `TradeType`. */
  datatype TradeType = Plumbing | Electrical | Hvac | Maintenance | General | Other

  /** The `category` of a job or issue: every trade except `'general'`. */
  type Category = t: TradeType | t != General witness Plumbing

  function TradeName(t: TradeType): string {
    match t
    case Plumbing => "plumbing"
    case Electrical => "electrical"
    case Hvac => "hvac"
    case Maintenance => "maintenance"
    case General => "general"
    case Other => "other"
  }

  datatype Contractor = Contractor(
    id: string, name: string, trade: string, email: string, phone: string, activeJobs: int)

  datatype Job = Job(
    id: string, title: string, description: string, tenant: string, address: string,
    urgency: Urgency, category: Category, status: Status,
    createdAt: Timestamp, scheduledDate: Option<Day>, timeSlot: TimeSlot)

  datatype Property = Property(
    id: string, address: string, tenantName: string, tenantEmail: string, tenantPhone: string)

  /** An `Issue` is a `Job` with a property and the optional fields of the intake form. */
  datatype Issue = Issue(
    id: string, title: string, description: string, tenant: string, address: string,
    urgency: Urgency, category: Category, status: Status,
    createdAt: Timestamp, scheduledDate: Option<Day>, timeSlot: TimeSlot,
    propertyId: string, images: Option<seq<string>>,
    emergencyType: Option<string>, emergencyConfirmed: Option<bool>)

  datatype PropertyManager = PropertyManager(
    id: string, name: string, email: string, phone: string,
    assignedProperties: int, activeIssues: int)

  /**
   * `ContractorAvailability`. Its `trade` is filled from the contractor's
   * free-text trade by an unchecked cast, so it is a string here.
   */
  datatype ContractorAvailability = ContractorAvailability(
    contractorId: string, contractorName: string, trade: string, date: Day, slots: seq<TimeSlot>)

  datatype SortField = SortByDate | SortByPriority | SortByProperty | SortByStatus
  datatype Direction = Asc | Desc
  datatype SortOption = SortOption(field: SortField, direction: Direction)

  datatype FilterField = FilterStatus | FilterPriority | FilterTrade | FilterProperty
  datatype FilterOption = FilterOption(field: FilterField, value: string)

  /** `Math.max(0, n - 1)`: the counters of active jobs and issues. */
  function FlooredDecrement(n: int): (r: nat)
    ensures n >= 1 ==> r == n - 1
    ensures n <= 1 ==> r == 0
  {
    if n - 1 > 0 then n - 1 else 0
  }
}
