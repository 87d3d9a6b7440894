/**
 * The database records of the building-management application that the
 * wallet and payment core reads and writes, with the defaults their fields
 * are created with. Money is kept as an integer number of cents.
 */
module Records {
  import opened Wrappers

  type UserId = nat
  type BuildingId = nat
  type ResidentId = nat
  type ServiceId = nat
  type ManagerId = nat
  type SubscriptionId = nat

  /** A calendar date or a timestamp, as an opaque ordinal. */
  type Date = int

  /** An amount of money in cents. */
  type Cents = int

  /**
   * A `DecimalField(max_digits=10, decimal_places=2)` holds at most eight
   * digits before the point and two after it, so at most 10^10 - 1 cents.
   */
  const DecimalBound: int := 10_000_000_000

  predicate FitsDecimal(c: Cents) {
    -DecimalBound < c < DecimalBound
  }

  /** A recurring fee for one user of one building. */
  datatype Subscription = Subscription(
    building: BuildingId,
    user: UserId,
    amount: Cents,
    startDate: Date,
    endDate: Date)

  /**
   * One row of the payments table: who paid, how much, and the receipt
   * number that the table keeps unique. The row's position in the table
   * stands for its auto-incremented id.
   */
  datatype Payment = Payment(user: UserId, amount: Cents, receipt: string)

  /** A service a business owner offers to a building. */
  datatype Service = Service(
    name: string,
    description: string,
    cost: Cents,
    availableFrom: Date,
    availableTo: Date,
    buildingManager: UserId,
    businessManager: UserId,
    isActive: bool)

  /** The profile of the manager of one building. */
  datatype BuildingManager = BuildingManager(
    user: UserId,
    building: BuildingId,
    verified: bool,
    approvedByAdmin: bool)

  /** A newly defined service starts inactive. */
  function NewService(name: string, description: string, cost: Cents,
                      availableFrom: Date, availableTo: Date,
                      buildingManager: UserId, businessManager: UserId): (s: Service)
    ensures !s.isActive
    ensures s.name == name && s.cost == cost && s.businessManager == businessManager
  {
    Service(name, description, cost, availableFrom, availableTo,
            buildingManager, businessManager, false)
  }

  /** A newly registered manager is neither verified nor approved by an administrator. */
  function NewBuildingManager(user: UserId, building: BuildingId): (m: BuildingManager)
    ensures !m.verified && !m.approvedByAdmin
    ensures m.user == user && m.building == building
  {
    BuildingManager(user, building, false, false)
  }

  /** Both status columns are `CharField(max_length=50)`. */
  const StatusMaxLength: nat := 50

  /** The `STATUS_CHOICES` of a service request. */
  datatype ServiceRequestStatus = Pending | Approved | Completed | Cancelled {
    /** The value stored in the database column. */
    function Code(): (c: string)
      ensures 0 < |c| <= StatusMaxLength
    {
      match this
      case Pending => "pending"
      case Approved => "approved"
      case Completed => "completed"
      case Cancelled => "cancelled"
    }
  }

  /** Reads a stored status code back; only the four choices are recognised. */
  function ParseServiceRequestStatus(code: string): (r: Option<ServiceRequestStatus>)
    ensures r.Some? ==> r.value.Code() == code
    ensures forall s: ServiceRequestStatus :: s.Code() == code ==> r == Some(s)
  {
    if code == "pending" then Some(Pending)
    else if code == "approved" then Some(Approved)
    else if code == "completed" then Some(Completed)
    else if code == "cancelled" then Some(Cancelled)
    else None
  }

  datatype ServiceRequest = ServiceRequest(
    user: UserId,
    service: ServiceId,
    status: ServiceRequestStatus,
    additionalInfo: Option<string>)

  /** A new service request is stored with the status code "pending". */
  function NewServiceRequest(user: UserId, service: ServiceId,
                             additionalInfo: Option<string>): (r: ServiceRequest)
    ensures r.status.Code() == "pending"
    ensures r.user == user && r.service == service && r.additionalInfo == additionalInfo
  {
    ServiceRequest(user, service, Pending, additionalInfo)
  }

  /** The `STATUS_CHOICES` of an issue report. */
  datatype IssueReportStatus = Open | InProgress | Resolved {
    /** The value stored in the database column. */
    function Code(): (c: string)
      ensures 0 < |c| <= StatusMaxLength
    {
      match this
      case Open => "open"
      case InProgress => "in_progress"
      case Resolved => "resolved"
    }
  }

  /** Reads a stored status code back; only the three choices are recognised. */
  function ParseIssueReportStatus(code: string): (r: Option<IssueReportStatus>)
    ensures r.Some? ==> r.value.Code() == code
    ensures forall s: IssueReportStatus :: s.Code() == code ==> r == Some(s)
  {
    if code == "open" then Some(Open)
    else if code == "in_progress" then Some(InProgress)
    else if code == "resolved" then Some(Resolved)
    else None
  }

  datatype IssueReport = IssueReport(
    resident: ResidentId,
    description: string,
    status: IssueReportStatus,
    notes: Option<string>)

  /** A new issue report is stored with the status code "open" and no notes. */
  function NewIssueReport(resident: ResidentId, description: string): (r: IssueReport)
    ensures r.status.Code() == "open" && r.notes == None
    ensures r.resident == resident && r.description == description
  {
    IssueReport(resident, description, Open, None)
  }
}
