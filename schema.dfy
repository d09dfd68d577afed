/** The fixed layout of the workbook: the seven sheet names and the column
    list each sheet is created with (index.py, ensure_workbook). */
module Schema {

  const Companies := "companies"
  const Engineers := "engineers"
  const Sites := "sites"
  const Assignments := "assignments"
  const FundAllocations := "fund_allocations"
  const Expenses := "expenses"
  const AuditLog := "audit_log"

  const CompanyColumns: seq<string> := ["company_id", "company_name", "address", "phone"]
  const EngineerColumns: seq<string> := ["engineer_id", "name", "role", "phone", "email", "active"]
  const SiteColumns: seq<string> := ["site_id", "site_name", "location", "start_date", "end_date", "status"]
  const AssignmentColumns: seq<string> :=
    ["assignment_id", "engineer_id", "site_id", "assigned_by", "assigned_on", "is_active"]
  const AllocationColumns: seq<string> :=
    ["allocation_id", "engineer_id", "site_id", "amount_allocated", "date_allocated", "balance_remaining", "notes"]
  const ExpenseColumns: seq<string> :=
    ["expense_id", "site_id", "engineer_id", "expense_type", "amount", "date", "payment_mode",
     "receipt_path", "approved_by", "approved", "notes"]
  const AuditColumns: seq<string> := ["log_id", "action", "object_type", "object_id", "user", "timestamp", "details"]

  /** The sheets ensure_workbook creates, in the order it writes them. */
  const Layout: seq<(string, seq<string>)> := [
    (Companies, CompanyColumns),
    (Engineers, EngineerColumns),
    (Sites, SiteColumns),
    (Assignments, AssignmentColumns),
    (FundAllocations, AllocationColumns),
    (Expenses, ExpenseColumns),
    (AuditLog, AuditColumns)
  ]
}
