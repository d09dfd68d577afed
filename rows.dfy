/** One typed row per sheet of the workbook, and the rows the forms build
    (index.py: the dictionaries passed to append_row and log).
    Money is held in integer cents; ids, dates and timestamps are strings,
    as the sheets store them. */
module Rows {
  import opened Schema

  datatype Row =
    | Company(companyId: string, companyName: string, address: string, phone: string)
    | Engineer(engineerId: string, name: string, role: string, phone: string, email: string, active: bool)
    | Site(siteId: string, siteName: string, location: string, startDate: string, endDate: string, status: string)
    | Assignment(assignmentId: string, engineerId: string, siteId: string, assignedBy: string,
                 assignedOn: string, isActive: bool)
    | Allocation(allocationId: string, engineerId: string, siteId: string, amountAllocated: int,
                 dateAllocated: string, balanceRemaining: int, notes: string)
    | Expense(expenseId: string, siteId: string, engineerId: string, expenseType: string, amount: int,
              date: string, paymentMode: string, receiptPath: string, approvedBy: string, approved: bool,
              notes: string)
    | AuditEntry(logId: string, action: string, objectType: string, objectId: string, user: string,
                 timestamp: string, details: string)

  /** The fresh log id (uuid4) and UTC timestamp that log() draws for an audit entry. */
  datatype Stamp = Stamp(logId: string, timestamp: string)

  /** The keys of a row, in the order the dictionary literal lists them. */
  function Columns(r: Row): seq<string>
  {
    match r
    case Company(_, _, _, _) => CompanyColumns
    case Engineer(_, _, _, _, _, _) => EngineerColumns
    case Site(_, _, _, _, _, _) => SiteColumns
    case Assignment(_, _, _, _, _, _) => AssignmentColumns
    case Allocation(_, _, _, _, _, _, _) => AllocationColumns
    case Expense(_, _, _, _, _, _, _, _, _, _, _) => ExpenseColumns
    case AuditEntry(_, _, _, _, _, _, _) => AuditColumns
  }

  /** The sheet a row of this kind belongs to. */
  function SheetOf(r: Row): string
  {
    match r
    case Company(_, _, _, _) => Companies
    case Engineer(_, _, _, _, _, _) => Engineers
    case Site(_, _, _, _, _, _) => Sites
    case Assignment(_, _, _, _, _, _) => Assignments
    case Allocation(_, _, _, _, _, _, _) => FundAllocations
    case Expense(_, _, _, _, _, _, _, _, _, _, _) => Expenses
    case AuditEntry(_, _, _, _, _, _, _) => AuditLog
  }

  /** The values a row holds when a form has just created it: an allocation
      has its whole amount left, an expense is neither approved nor reviewed,
      an engineer and an assignment are active, a site is ongoing and open-ended. */
  ghost predicate AsCreated(r: Row)
  {
    match r
    case Company(_, _, _, _) => true
    case Engineer(_, _, _, _, _, active) => active
    case Site(_, _, _, _, endDate, status) => endDate == "" && status == "Ongoing"
    case Assignment(_, _, _, _, _, isActive) => isActive
    case Allocation(_, _, _, amount, _, balance, _) => balance == amount
    case Expense(_, _, _, _, _, _, _, _, approvedBy, approved, _) => !approved && approvedBy == ""
    case AuditEntry(_, _, _, _, _, _, _) => true
  }

  /** Balance never above the amount granted: the allocation-row invariant. */
  predicate WithinGrant(r: Row)
  {
    r.Allocation? ==> r.balanceRemaining <= r.amountAllocated
  }

  /** The row the "Allocate Funds" form appends. */
  function NewAllocation(allocationId: string, engineerId: string, siteId: string, amount: int,
                         today: string, notes: string): (r: Row)
    ensures AsCreated(r) && WithinGrant(r) && SheetOf(r) == FundAllocations
    ensures r.Allocation? && r.allocationId == allocationId && r.engineerId == engineerId
    ensures r.siteId == siteId && r.amountAllocated == amount && r.balanceRemaining == amount
  {
    Allocation(allocationId, engineerId, siteId, amount, today, amount, notes)
  }

  /** The row the "Assign Engineer" form appends. */
  function NewAssignment(assignmentId: string, engineerId: string, siteId: string, assignedBy: string,
                         today: string): (r: Row)
    ensures AsCreated(r) && SheetOf(r) == Assignments
    ensures r.Assignment? && r.assignmentId == assignmentId && r.engineerId == engineerId
    ensures r.siteId == siteId && r.assignedBy == assignedBy && r.isActive
  {
    Assignment(assignmentId, engineerId, siteId, assignedBy, today, true)
  }

  /** The row the "Record Expense" form appends; receiptPath is "" when no receipt was uploaded. */
  function NewExpense(expenseId: string, siteId: string, engineerId: string, expenseType: string,
                      amount: int, date: string, paymentMode: string, receiptPath: string,
                      notes: string): (r: Row)
    ensures AsCreated(r) && SheetOf(r) == Expenses
    ensures r.Expense? && r.expenseId == expenseId && r.siteId == siteId && r.engineerId == engineerId
    ensures r.amount == amount && !r.approved && r.approvedBy == ""
  {
    Expense(expenseId, siteId, engineerId, expenseType, amount, date, paymentMode, receiptPath, "", false, notes)
  }

  /** The row the "Add Engineer" form appends. */
  function NewEngineer(engineerId: string, name: string, role: string, phone: string, email: string): (r: Row)
    ensures AsCreated(r) && SheetOf(r) == Engineers
    ensures r.Engineer? && r.engineerId == engineerId && r.name == name && r.active
  {
    Engineer(engineerId, name, role, phone, email, true)
  }

  /** The row the "Add Site" form appends. */
  function NewSite(siteId: string, siteName: string, location: string, startDate: string): (r: Row)
    ensures AsCreated(r) && SheetOf(r) == Sites
    ensures r.Site? && r.siteId == siteId && r.siteName == siteName
    ensures r.status == "Ongoing" && r.endDate == ""
  {
    Site(siteId, siteName, location, startDate, "", "Ongoing")
  }

  /** The row log() appends to the audit sheet. */
  function NewAuditEntry(stamp: Stamp, action: string, objectType: string, objectId: string,
                         user: string, details: string): (r: Row)
    ensures SheetOf(r) == AuditLog
    ensures r.AuditEntry? && r.logId == stamp.logId && r.timestamp == stamp.timestamp
    ensures r.action == action && r.objectType == objectType && r.objectId == objectId && r.user == user && r.details == details
  {
    AuditEntry(stamp.logId, action, objectType, objectId, user, stamp.timestamp, details)
  }

  /** Every kind of row has exactly the columns of the sheet it belongs to. */
  lemma RowFitsItsSheet(r: Row)
    ensures (SheetOf(r), Columns(r)) in Layout
  {
  }
}
