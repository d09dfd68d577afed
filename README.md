# Construction tracker: sheet store, allocation reconciler and rollups

This project models the core of a single-script construction-company tracker
(`index.py`). The tracker keeps its data in one workbook of seven sheets:
companies, engineers, sites, assignments, fund allocations, expenses and an
audit log. Its forms append rows to these sheets. Recording an expense also
debits the first matching fund allocation. The approvals page marks expenses
approved or rejected. The dashboard sums expenses and allocations per site
and per engineer.

The model has eight modules:

- `Schema` (schema.dfy): the seven sheet names and the column list each one is created with.
- `Rows` (rows.dfy): one typed row per sheet, in a single `Row` datatype. It also holds the row constructors of the Allocate, Assign, Record Expense and Admin forms and of `log`.
- `Tables` (tables.dfy): a sheet in memory, a header plus rows in order. It also defines the one-row concatenation `append_row` performs, including how the header grows.
- `Workbook` (workbook.dfy): the store. Pure functions (`Ensured`, `ReadFrom`, `WriteTo`, `Appended`) give the meaning of `ensure_workbook`, `read_sheet`, `write_sheet` and `append_row`. The class `Store` holds the workbook: `present` says whether the file exists and `sheets` maps names to tables. Its methods update it in place and are proved against those functions.
- `Reconciler` (reconciler.dfy): the first-fit search and the debit with no floor.
- `Approvals` (approvals.dfy): approve/reject and the pending filter.
- `Dashboard` (dashboard.dfy): the group sums and the two left-joined summaries.
- `Forms` (forms.dfy): the form handlers as methods on a `Store`, plus pure effect functions and lemmas for recording and reviewing an expense.

Amounts are integer cents. Ids (uuid4), dates, and the audit log id and
timestamp are parameters. So is the outcome of each attempt to take the file
lock: `Acquired` or `TimedOut`.

In these places the model keeps the code's behaviour as written:

- `ensure_workbook` runs before `write_sheet` takes the lock. So a write that times out can still create the workbook. "Nothing changes on timeout" therefore holds once the workbook exists (`Workbook.Store.WriteSheet`).
- A new expense is written with `approved = False`, and so is a rejected one. Pending means `approved != True`, so a rejected expense stays pending (`Approvals.RejectedStaysPending`). A later decision simply replaces an earlier one (`Approvals.LastReviewWins`). There is no separate third state.
- The reconciler runs even when the expense append timed out (`Forms.RecordExpenseDebits` does not depend on the expense lock).
- When the allocation sheet lacks the engineer, site or balance column (a workbook without that sheet reads as a column-less frame), the reconciler's mask raises a key error. The handler then stops after the expense append and logs nothing (`Forms.RecordExpense` returns `completed = false`; `Forms.RecordExpenseEffect`).
- Approve and reject write back the expense table loaded when the page was drawn, not a fresh read (`Forms.ReviewExpense` takes it as `loaded`).
- A balance never exceeds its grant only when expense amounts are non-negative. The form enforces this (`Reconciler.DebitKeepsWithinGrant`).

## Model

| member | source | states |
|---|---|---|
| `Workbook.Store.constructor` | index.py:20 | a store whose workbook file does not exist yet: no sheets |
| `Workbook.Store.EnsureWorkbook` | index.py:19-33 | if the workbook is absent, writes every layout sheet header-only, one by one; otherwise changes nothing; afterwards the workbook exists |
| `Workbook.HeadersShape` | index.py:31-33 | writing the layout's sheets in turn yields one sheet per name, with that entry's columns and no rows |
| `Workbook.InitialSheetsShape` | index.py:22-30 | a new workbook has exactly the seven named sheets, each with its fixed column list and zero rows |
| `Workbook.EnsureIdempotent` | index.py:19-20 | ensuring twice equals ensuring once; an existing workbook is left as it is |
| `Workbook.Store.ReadSheet` | index.py:35-40 | ensures the workbook, then returns the named sheet, or the empty table when there is no such sheet |
| `Workbook.ReadMissing` | index.py:37-40 | reading a sheet the workbook lacks gives an empty table with no rows, not an error |
| `Workbook.Store.WriteSheet` | index.py:42-51 | with the lock, the named sheet becomes t and no other sheet changes; on timeout only the workbook's creation happens, so an existing workbook is unchanged |
| `Workbook.WriteFrame` | index.py:46-51 | read after write returns what was written; other sheets read as before; a timed-out write changes nothing |
| `Workbook.Store.AppendRow` | index.py:53-56 | the store becomes the old one with the named sheet's rows followed by the new row |
| `Workbook.AppendFrame` | index.py:53-56 | with the lock, the sheet holds its old rows in order and exactly one more, the new row; other sheets are untouched; on timeout nothing changes |
| `Workbook.Store.Log` | index.py:58-67 | appends exactly one audit entry carrying the given action, object, user, details, log id and timestamp |
| `Tables.MergeColumns` | index.py:55 | the concatenated header starts with the whole old header |
| `Tables.MergeColumnsMembers` | index.py:55 | a column is in the concatenated header exactly when it is in the old header or in the row |
| `Tables.MergeKnownColumns` | index.py:55 | a row whose columns the header already has leaves the header unchanged |
| `Tables.MergeNewColumns` | index.py:55 | distinct, new columns are added after the old header in the row's order |
| `Tables.Concat` | index.py:55 | the old rows in order, then the new row; the old header is a prefix of the new one, which has every column of the row |
| `Tables.ConcatHeader` | index.py:53-56 | appending a row to a sheet with its own header keeps the header; appending to an unreadable sheet gives exactly the row's header and one row |
| `Tables.ColumnsDistinct` | index.py:22-29 | no sheet's column list names a column twice |
| `Rows.RowFitsItsSheet` | index.py:22-29 | each kind of row has exactly the columns of the sheet it belongs to |
| `Rows.NewAllocation` | index.py:133-141 | a new allocation has balance_remaining equal to amount_allocated, the given ids and amount, and respects the balance-within-grant invariant |
| `Rows.NewAssignment` | index.py:156-163 | a new assignment is active and carries the given engineer, site and assigner |
| `Rows.NewExpense` | index.py:190-202 | a new expense is not approved, has an empty approved_by, and carries the given ids and amount |
| `Rows.NewEngineer` | index.py:256 | a new engineer is active |
| `Rows.NewSite` | index.py:268 | a new site has status "Ongoing" and an empty end date |
| `Rows.NewAuditEntry` | index.py:59-67 | an audit entry carries the stamp's log id and timestamp and the given action, object type, object id, user and details |
| `Reconciler.FirstFit` | index.py:206-208 | returns the first position whose row is an allocation for the engineer and site with positive balance, and none before it qualifies; returns nothing only if no row qualifies |
| `Reconciler.FirstFitUnique` | index.py:208 | only one position can be the first fit |
| `Reconciler.DebitChargesFirstFit` | index.py:205-210 | the debit lowers exactly the first-fit row's balance by the full amount, with no floor; every other row is unchanged |
| `Reconciler.DebitWithoutMatch` | index.py:207 | with no eligible row the allocation rows are unchanged |
| `Reconciler.DebitKeepsWithinGrant` | index.py:209 | a non-negative debit keeps every balance at or below its grant |
| `Reconciler.SingleGrantScenario` | index.py:205-210 | a grant of 1000.00 and an expense of 300.00 leave 700.00 |
| `Reconciler.NoFloorScenario` | index.py:205-210 | two grants of 500.00 and an expense of 600.00: the first goes to -100.00, the second keeps 500.00 |
| `Reconciler.DebitAllAccounting` | index.py:205-210 | after any sequence of recorded expenses, each allocation row has lost exactly the amounts first fit routed to it and every other field and row is unchanged; a freshly granted row holds its grant minus those amounts |
| `Reconciler.RoutedNonNegative` | index.py:205-210 | with non-negative expense amounts, the total routed to any row is non-negative |
| `Reconciler.DebitAllNeverRaises` | index.py:205-210 | with non-negative expense amounts, no balance ever rises and no grant changes over any sequence of expenses |
| `Approvals.MarkReviewed` | index.py:228-238 | every row with the expense id gets the decision and the acting user; all other rows, and all other fields, are unchanged |
| `Approvals.Pending` | index.py:217 | a row is in the pending view exactly when it is in the table and its approved cell is not True |
| `Approvals.PendingKeepsOrder` | index.py:217 | the pending view keeps table order: filtering a concatenation is concatenating the filtered parts |
| `Approvals.ApproveClearsPending` | index.py:217-232 | after an approval the pending view is the old one without that expense's rows, and nothing else leaves it |
| `Approvals.RejectedStaysPending` | index.py:235-238 | a rejected expense carries the rejecting user and still appears in the pending view |
| `Approvals.LastReviewWins` | index.py:228-238 | a second decision on the same expense replaces the first; repeating a decision changes nothing |
| `Approvals.ApprovalScenario` | index.py:190-232 | a new expense is pending; approved by Alice it is approved, approved_by is Alice, and it is no longer pending |
| `Dashboard.GroupSum` | index.py:107-114 | a group with no rows sums to 0 |
| `Dashboard.GroupSumAppend` | index.py:107-114 | a row added at the end adds only its own contribution to each group sum |
| `Dashboard.GroupSumUpdate` | index.py:107-114 | replacing one row changes a group sum by the difference of the two rows' contributions |
| `Dashboard.GroupSumPointwise` | index.py:107-114 | tables whose rows contribute alike position by position have equal sums |
| `Dashboard.SiteSummary` | index.py:107-110 | one line per site in list order, with the site's id, name, location and status and the sum of all its expenses (0 when none) |
| `Dashboard.EngineerSummary` | index.py:113-119 | one line per engineer in list order, with the sums of granted amounts, expenses and remaining balances for that engineer (0 when none) |
| `Dashboard.EmptyTablesGiveZeros` | index.py:107-119 | with no expenses and no allocations every site and engineer line shows zero totals |
| `Dashboard.RecordedExpenseCounted` | index.py:107-109 | a newly recorded expense adds its amount to its own site's line and to no other |
| `Dashboard.UnlistedSiteIgnored` | index.py:108 | a row whose site id is not in the site list changes no line of the site summary |
| `Dashboard.UnlistedEngineerIgnored` | index.py:115 | a row whose engineer id is not in the engineer list changes no line of the engineer summary |
| `Dashboard.ReviewKeepsRollups` | index.py:107-119 | approving or rejecting an expense changes neither summary: expenses count whatever their approval state |
| `Dashboard.DebitLowersBalance` | index.py:114 | the reconciler's debit lowers the charged engineer's balance line by the amount when an allocation was eligible; granted and spent totals and other engineers are unchanged |
| `Forms.Selectable` | index.py:125 | an engineer is offered for allocation exactly when their active cell is not False |
| `Forms.SelectableKeepsOrder` | index.py:125 | the engineer choices keep table order: filtering a concatenation is concatenating the filtered parts |
| `Forms.NewEngineerSelectable` | index.py:125 | an engineer added through the Admin form is offered by the Allocate form |
| `Forms.ReconcileNeedsItsSheet` | index.py:205-206 | a newly created workbook's allocation sheet has the columns the reconciler needs; a workbook without that sheet does not |
| `Forms.ReconciledFrame` | index.py:205-210 | the reconciler writes the debited allocation sheet only if some allocation is eligible and the lock is held, and touches no other sheet |
| `Forms.RecordExpenseAppends` | index.py:203 | recording an expense appends it to the expense sheet when that lock is held |
| `Forms.RecordExpenseDebits` | index.py:203-210 | recording an expense leaves the allocation sheet debited by first fit if the sheet has the columns the mask needs, an allocation is eligible and the lock is held, and unchanged otherwise, whatever happened to the expense append |
| `Forms.RecordExpenseKeepsWithinGrant` | index.py:203-210 | if every allocation's balance is within its grant, it still is after recording an expense of a non-negative amount |
| `Forms.RecordExpenseLogs` | index.py:205-211 | recording an expense appends its create_expense audit entry exactly when the reconciler's mask could be built and the log lock is held, and leaves every sheet but expenses, allocations and the audit log unchanged |
| `Forms.ReviewOutcome` | index.py:228-239 | with the lock, the expense sheet becomes the loaded table with the decision applied, else it is unchanged; with the log lock, the audit log gains exactly the approve_expense or reject_expense entry; every other sheet is unchanged |
| `Forms.AllocateFunds` | index.py:131-144 | appends the new allocation, then its audit entry |
| `Forms.AssignEngineer` | index.py:154-166 | appends the new assignment, then its audit entry |
| `Forms.RecordExpense` | index.py:181-212 | appends the expense; stops there, reporting not completed, when the allocation frame lacks a needed column; otherwise debits the first eligible allocation in place, writes it back if one exists, and logs |
| `Forms.ReviewExpense` | index.py:228-241 | writes the loaded expense table with the decision applied, then logs approve_expense or reject_expense |
| `Forms.AddEngineer` | index.py:253-258 | appends an active engineer, then logs its name |
| `Forms.AddSite` | index.py:266-270 | appends an ongoing site with no end date, then logs its name |

## Left out

- The Streamlit interface is not modelled: widgets, forms, page navigation and reruns. Only what the form handlers write is modelled.
- Sign-in is not modelled, and neither is its audit entry (`login`). The acting user is a plain string parameter.
- Excel and openpyxl file I/O is replaced by the in-memory `sheets` map, and `os.path.exists` by the `present` flag. The position of a sheet inside the file is not modelled.
- The `except` branch of `read_sheet` is modelled only for a missing sheet. The unreadable or corrupt file is not.
- `FileLock` is reduced to an `Acquired`/`TimedOut` input per write. The race between the unlocked read and the locked write in `append_row` and in the reconciler is not modelled. Neither is the error message shown on timeout.
- Receipt upload into `uploads/` is not modelled; the receipt path is a parameter. The uploads directory creation and the CSV export page are not modelled either.
- `uuid4()` and `datetime.utcnow()` are parameters. The `details=str(row)` text of the audit entries for allocations, assignments and expenses is also a parameter, because the Python dictionary rendering is not modelled.
- Amounts are integer cents rather than floats. pandas dtype coercion, NaN cells and `fillna` on floats are not modelled.
- The date-descending sort of the pending list is display order only and is not modelled.
- No form writes the companies sheet, so it appears only in the layout.
- Dashboard.SiteSummary: requires the site list to hold site rows only, because another kind of row has no site_id cell to join on. A sites frame read from a workbook without that sheet has no site_id column, so the merge at index.py:108 raises a key error; the model instead gives an empty summary for an empty list.
- Dashboard.EngineerSummary: requires the engineer list to hold engineer rows only, for the same reason. An engineers frame read from a workbook without that sheet has no engineer_id column, so the merge at index.py:115 raises a key error; the model instead gives an empty summary for an empty list.
- Dashboard.GroupSum: a sheet read as the empty frame has no key column, which makes pandas `groupby` fail; the model gives zero sums instead.
