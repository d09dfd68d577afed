/** The form handlers of index.py, as operations on the store: each builds
    its row, appends or rewrites a sheet, and logs one audit entry. Ids,
    dates and audit stamps are parameters; so is the outcome of each lock. */
module Forms {
  import opened Schema
  import opened Rows
  import opened Tables
  import opened Workbook
  import Reconciler
  import Approvals

  /** The engineers offered by the Allocate Funds form: every row whose active
      cell is not False, in table order. */
  function Selectable(engineers: seq<Row>): (p: seq<Row>)
    ensures |p| <= |engineers|
    ensures forall r :: r in p <==> r in engineers && !(r.Engineer? && !r.active)
  {
    if engineers == [] then []
    else if engineers[0].Engineer? && !engineers[0].active then Selectable(engineers[1..])
    else [engineers[0]] + Selectable(engineers[1..])
  }

  /** The engineer choices keep table order: filtering two stretches of rows
      one after the other is filtering their concatenation. */
  lemma {:induction false} SelectableKeepsOrder(a: seq<Row>, b: seq<Row>)
    ensures Selectable(a + b) == Selectable(a) + Selectable(b)
    decreases |a|
  {
    if a != [] {
      assert (a + b)[0] == a[0] && (a + b)[1..] == a[1..] + b;
      SelectableKeepsOrder(a[1..], b);
    } else {
      assert a + b == b;
    }
  }

  /** An engineer added through the Admin form can be chosen for an allocation. */
  lemma NewEngineerSelectable(engineers: seq<Row>, engineerId: string, name: string, role: string,
                              phone: string, email: string)
    ensures NewEngineer(engineerId, name, role, phone, email)
         in Selectable(engineers + [NewEngineer(engineerId, name, role, phone, email)])
  {
  }

  /** Whether the reconciler's mask can be built: a frame without the
      engineer, site or balance column makes the lookup fail with a key error,
      which ends the handler before it writes or logs anything more. */
  predicate CanReconcile(alloc: Table)
  {
    "engineer_id" in alloc.columns && "site_id" in alloc.columns && "balance_remaining" in alloc.columns
  }

  /** A newly created workbook's allocation sheet can be reconciled against;
      a workbook without that sheet reads as the column-less frame, which cannot. */
  lemma ReconcileNeedsItsSheet(sheets: Sheets)
    ensures CanReconcile(ReadFrom(Ensured(false, sheets), FundAllocations))
    ensures FundAllocations !in sheets ==> !CanReconcile(ReadFrom(Ensured(true, sheets), FundAllocations))
  {
    InitialSheetsShape();
    assert Layout[4] == (FundAllocations, AllocationColumns);
    assert AllocationColumns[1] == "engineer_id" && AllocationColumns[2] == "site_id"
        && AllocationColumns[5] == "balance_remaining";
  }

  /** The reconciler's step on the store: the allocation sheet is read, and
      written back debited when some allocation is eligible for the expense. */
  function Reconciled(sheets: Sheets, expense: Row, lockAlloc: Lock): Sheets
    requires expense.Expense?
  {
    var alloc := ReadFrom(sheets, FundAllocations);
    if Reconciler.FirstFit(alloc.rows, expense.engineerId, expense.siteId).None? then sheets
    else WriteTo(sheets, FundAllocations,
                 alloc.(rows := Reconciler.Debit(alloc.rows, expense.engineerId, expense.siteId, expense.amount)),
                 lockAlloc)
  }

  /** The reconciler writes the debited allocation sheet exactly when an
      allocation is eligible and the lock is held, and touches no other sheet. */
  lemma ReconciledFrame(sheets: Sheets, expense: Row, lockAlloc: Lock, other: string)
    requires expense.Expense?
    ensures
      var alloc := ReadFrom(sheets, FundAllocations);
      var hit := exists j :: 0 <= j < |alloc.rows| && Reconciler.Eligible(alloc.rows[j], expense.engineerId, expense.siteId);
      ReadFrom(Reconciled(sheets, expense, lockAlloc), FundAllocations)
        == if hit && lockAlloc == Acquired
           then alloc.(rows := Reconciler.Debit(alloc.rows, expense.engineerId, expense.siteId, expense.amount))
           else alloc
    ensures other != FundAllocations ==> ReadFrom(Reconciled(sheets, expense, lockAlloc), other) == ReadFrom(sheets, other)
  {
    var alloc := ReadFrom(sheets, FundAllocations);
    var k := Reconciler.FirstFit(alloc.rows, expense.engineerId, expense.siteId);
    if k.Some? {
      assert Reconciler.Eligible(alloc.rows[k.value], expense.engineerId, expense.siteId);
      var debited := alloc.(rows := Reconciler.Debit(alloc.rows, expense.engineerId, expense.siteId, expense.amount));
      WriteFrame(sheets, FundAllocations, debited, lockAlloc, other);
    }
  }

  /** The sheets after the Record Expense form: the expense is appended, the
      reconciler runs, and the action is logged; when the allocation frame
      lacks a column the reconciler needs, the handler stops after the append. */
  function RecordExpenseEffect(present: bool, sheets: Sheets, expense: Row, user: string, details: string,
                               stamp: Stamp, lockExpense: Lock, lockAlloc: Lock, lockLog: Lock): Sheets
    requires expense.Expense?
  {
    var withExpense := Appended(Ensured(present, sheets), Expenses, expense, lockExpense);
    if !CanReconcile(ReadFrom(withExpense, FundAllocations)) then withExpense
    else
      Appended(Reconciled(withExpense, expense, lockAlloc), AuditLog,
               NewAuditEntry(stamp, "create_expense", Expenses, expense.expenseId, user, details), lockLog)
  }

  /** Recording an expense appends it to the expense sheet (when that lock is held). */
  lemma RecordExpenseAppends(present: bool, sheets: Sheets, expense: Row, user: string, details: string,
                             stamp: Stamp, lockExpense: Lock, lockAlloc: Lock, lockLog: Lock)
    requires expense.Expense?
    ensures
      var before := Ensured(present, sheets);
      var after := RecordExpenseEffect(present, sheets, expense, user, details, stamp, lockExpense, lockAlloc, lockLog);
      ReadFrom(after, Expenses)
        == if lockExpense == Acquired then Concat(ReadFrom(before, Expenses), expense) else ReadFrom(before, Expenses)
  {
    var before := Ensured(present, sheets);
    var withExpense := Appended(before, Expenses, expense, lockExpense);
    var reconciled := Reconciled(withExpense, expense, lockAlloc);
    var entry := NewAuditEntry(stamp, "create_expense", Expenses, expense.expenseId, user, details);
    AppendFrame(before, Expenses, expense, lockExpense, Expenses);
    ReconciledFrame(withExpense, expense, lockAlloc, Expenses);
    AppendFrame(reconciled, AuditLog, entry, lockLog, Expenses);
  }

  /** Recording an expense debits the allocation sheet exactly when the sheet
      has the columns the reconciler needs, an allocation is eligible and that
      lock is held, whether or not the expense itself could be written. */
  lemma RecordExpenseDebits(present: bool, sheets: Sheets, expense: Row, user: string, details: string,
                            stamp: Stamp, lockExpense: Lock, lockAlloc: Lock, lockLog: Lock)
    requires expense.Expense?
    ensures
      var before := Ensured(present, sheets);
      var after := RecordExpenseEffect(present, sheets, expense, user, details, stamp, lockExpense, lockAlloc, lockLog);
      var alloc := ReadFrom(before, FundAllocations);
      var hit := exists j :: 0 <= j < |alloc.rows| && Reconciler.Eligible(alloc.rows[j], expense.engineerId, expense.siteId);
      ReadFrom(after, FundAllocations)
        == if CanReconcile(alloc) && hit && lockAlloc == Acquired
           then alloc.(rows := Reconciler.Debit(alloc.rows, expense.engineerId, expense.siteId, expense.amount))
           else alloc
  {
    var before := Ensured(present, sheets);
    var withExpense := Appended(before, Expenses, expense, lockExpense);
    var reconciled := Reconciled(withExpense, expense, lockAlloc);
    var entry := NewAuditEntry(stamp, "create_expense", Expenses, expense.expenseId, user, details);
    AppendFrame(before, Expenses, expense, lockExpense, FundAllocations);
    ReconciledFrame(withExpense, expense, lockAlloc, FundAllocations);
    AppendFrame(reconciled, AuditLog, entry, lockLog, FundAllocations);
  }

  /** Recording an expense of a non-negative amount keeps every allocation's
      balance within its grant. */
  lemma RecordExpenseKeepsWithinGrant(present: bool, sheets: Sheets, expense: Row, user: string, details: string,
                                      stamp: Stamp, lockExpense: Lock, lockAlloc: Lock, lockLog: Lock)
    requires expense.Expense? && expense.amount >= 0
    requires var rows := ReadFrom(Ensured(present, sheets), FundAllocations).rows;
      forall j :: 0 <= j < |rows| ==> WithinGrant(rows[j])
    ensures
      var after := RecordExpenseEffect(present, sheets, expense, user, details, stamp, lockExpense, lockAlloc, lockLog);
      var rows := ReadFrom(after, FundAllocations).rows;
      forall j :: 0 <= j < |rows| ==> WithinGrant(rows[j])
  {
    var rows := ReadFrom(Ensured(present, sheets), FundAllocations).rows;
    RecordExpenseDebits(present, sheets, expense, user, details, stamp, lockExpense, lockAlloc, lockLog);
    Reconciler.DebitKeepsWithinGrant(rows, expense.engineerId, expense.siteId, expense.amount);
  }

  /** Recording an expense appends one audit entry when the reconciler could
      run and that lock is held, and leaves every sheet other than the three
      it writes alone. */
  lemma RecordExpenseLogs(present: bool, sheets: Sheets, expense: Row, user: string, details: string,
                          stamp: Stamp, lockExpense: Lock, lockAlloc: Lock, lockLog: Lock, other: string)
    requires expense.Expense?
    ensures
      var before := Ensured(present, sheets);
      var after := RecordExpenseEffect(present, sheets, expense, user, details, stamp, lockExpense, lockAlloc, lockLog);
      var entry := NewAuditEntry(stamp, "create_expense", Expenses, expense.expenseId, user, details);
      ReadFrom(after, AuditLog)
        == if CanReconcile(ReadFrom(before, FundAllocations)) && lockLog == Acquired
           then Concat(ReadFrom(before, AuditLog), entry)
           else ReadFrom(before, AuditLog)
    ensures
      var before := Ensured(present, sheets);
      var after := RecordExpenseEffect(present, sheets, expense, user, details, stamp, lockExpense, lockAlloc, lockLog);
      other != Expenses && other != FundAllocations && other != AuditLog ==> ReadFrom(after, other) == ReadFrom(before, other)
  {
    var before := Ensured(present, sheets);
    var withExpense := Appended(before, Expenses, expense, lockExpense);
    var reconciled := Reconciled(withExpense, expense, lockAlloc);
    var entry := NewAuditEntry(stamp, "create_expense", Expenses, expense.expenseId, user, details);
    AppendFrame(before, Expenses, expense, lockExpense, AuditLog);
    ReconciledFrame(withExpense, expense, lockAlloc, AuditLog);
    AppendFrame(reconciled, AuditLog, entry, lockLog, AuditLog);
    AppendFrame(before, Expenses, expense, lockExpense, other);
    ReconciledFrame(withExpense, expense, lockAlloc, other);
    AppendFrame(reconciled, AuditLog, entry, lockLog, other);
  }

  /** The sheets after the approve (approve = true) or reject button: the
      expense table loaded when the page was drawn is rewritten with the
      decision, and the action is logged. */
  function ReviewEffect(present: bool, sheets: Sheets, loaded: Table, expenseId: string, approve: bool,
                        user: string, stamp: Stamp, lockWrite: Lock, lockLog: Lock): Sheets
  {
    var reviewed := loaded.(rows := Approvals.MarkReviewed(loaded.rows, expenseId, approve, user));
    var written := WriteTo(Ensured(present, sheets), Expenses, reviewed, lockWrite);
    Appended(written, AuditLog,
             NewAuditEntry(stamp, if approve then "approve_expense" else "reject_expense", Expenses, expenseId, user,
                           if approve then "approved" else "rejected"),
             lockLog)
  }

  /** A review writes the loaded expense table, with the decision applied,
      over the stored one (when that lock is held): so when the loaded table
      is still the stored one exactly the rows of that expense change, and a
      table loaded earlier overwrites whatever was stored since. It appends
      one audit entry (when that lock is held) and touches no other sheet. */
  lemma ReviewOutcome(present: bool, sheets: Sheets, loaded: Table, expenseId: string, approve: bool,
                      user: string, stamp: Stamp, lockWrite: Lock, lockLog: Lock, other: string)
    ensures
      var before := Ensured(present, sheets);
      var after := ReviewEffect(present, sheets, loaded, expenseId, approve, user, stamp, lockWrite, lockLog);
      var reviewed := loaded.(rows := Approvals.MarkReviewed(loaded.rows, expenseId, approve, user));
      ReadFrom(after, Expenses) == if lockWrite == Acquired then reviewed else ReadFrom(before, Expenses)
    ensures
      var before := Ensured(present, sheets);
      var after := ReviewEffect(present, sheets, loaded, expenseId, approve, user, stamp, lockWrite, lockLog);
      var entry := NewAuditEntry(stamp, if approve then "approve_expense" else "reject_expense", Expenses, expenseId,
                                 user, if approve then "approved" else "rejected");
      ReadFrom(after, AuditLog)
        == if lockLog == Acquired then Concat(ReadFrom(before, AuditLog), entry) else ReadFrom(before, AuditLog)
    ensures
      var before := Ensured(present, sheets);
      var after := ReviewEffect(present, sheets, loaded, expenseId, approve, user, stamp, lockWrite, lockLog);
      other != Expenses && other != AuditLog ==> ReadFrom(after, other) == ReadFrom(before, other)
  {
    var before := Ensured(present, sheets);
    var reviewed := loaded.(rows := Approvals.MarkReviewed(loaded.rows, expenseId, approve, user));
    var written := WriteTo(before, Expenses, reviewed, lockWrite);
    var entry := NewAuditEntry(stamp, if approve then "approve_expense" else "reject_expense", Expenses, expenseId, user,
                               if approve then "approved" else "rejected");
    WriteFrame(before, Expenses, reviewed, lockWrite, AuditLog);
    WriteFrame(before, Expenses, reviewed, lockWrite, other);
    AppendFrame(written, AuditLog, entry, lockLog, Expenses);
    AppendFrame(written, AuditLog, entry, lockLog, other);
  }

  /** Allocate Funds: append the new allocation, then log it. */
  method AllocateFunds(store: Store, allocationId: string, engineerId: string, siteId: string, amount: int,
                       today: string, notes: string, user: string, details: string, stamp: Stamp,
                       lockRow: Lock, lockLog: Lock)
    modifies store
    ensures store.present
    ensures store.sheets ==
      Appended(Appended(Ensured(old(store.present), old(store.sheets)), FundAllocations,
                        NewAllocation(allocationId, engineerId, siteId, amount, today, notes), lockRow),
               AuditLog, NewAuditEntry(stamp, "allocate_funds", FundAllocations, allocationId, user, details), lockLog)
  {
    var row := NewAllocation(allocationId, engineerId, siteId, amount, today, notes);
    store.AppendRow(FundAllocations, row, lockRow);
    store.Log("allocate_funds", FundAllocations, allocationId, user, details, stamp, lockLog);
  }

  /** Assign Engineer: append the new assignment, then log it. */
  method AssignEngineer(store: Store, assignmentId: string, engineerId: string, siteId: string,
                        assignedBy: string, today: string, user: string, details: string, stamp: Stamp,
                        lockRow: Lock, lockLog: Lock)
    modifies store
    ensures store.present
    ensures store.sheets ==
      Appended(Appended(Ensured(old(store.present), old(store.sheets)), Assignments,
                        NewAssignment(assignmentId, engineerId, siteId, assignedBy, today), lockRow),
               AuditLog, NewAuditEntry(stamp, "assign_engineer", Assignments, assignmentId, user, details), lockLog)
  {
    var row := NewAssignment(assignmentId, engineerId, siteId, assignedBy, today);
    store.AppendRow(Assignments, row, lockRow);
    store.Log("assign_engineer", Assignments, assignmentId, user, details, stamp, lockLog);
  }

  /** Record Expense: append the expense, debit the first eligible allocation
      in place and write the allocation sheet back if one was found, then log.
      `completed` is false when the allocation frame lacks a column the
      reconciler needs, where the handler stops with a key error. */
  method RecordExpense(store: Store, expenseId: string, siteId: string, engineerId: string, expenseType: string,
                       amount: int, date: string, paymentMode: string, receiptPath: string, notes: string,
                       user: string, details: string, stamp: Stamp,
                       lockExpense: Lock, lockAlloc: Lock, lockLog: Lock)
    returns (completed: bool)
    modifies store
    ensures store.present
    ensures completed == CanReconcile(ReadFrom(Ensured(old(store.present), old(store.sheets)), FundAllocations))
    ensures store.sheets ==
      RecordExpenseEffect(old(store.present), old(store.sheets),
                          NewExpense(expenseId, siteId, engineerId, expenseType, amount, date, paymentMode, receiptPath, notes),
                          user, details, stamp, lockExpense, lockAlloc, lockLog)
  {
    var row := NewExpense(expenseId, siteId, engineerId, expenseType, amount, date, paymentMode, receiptPath, notes);
    ghost var before := Ensured(store.present, store.sheets);
    store.AppendRow(Expenses, row, lockExpense);
    ghost var withExpense := store.sheets;
    AppendFrame(before, Expenses, row, lockExpense, FundAllocations);
    var alloc := store.ReadSheet(FundAllocations);
    completed := CanReconcile(alloc);
    if !completed {
      return;
    }
    var hit := Reconciler.FirstFit(alloc.rows, engineerId, siteId);
    if hit.Some? {
      var i := hit.value;
      var charged := alloc.rows[i].(balanceRemaining := alloc.rows[i].balanceRemaining - amount);
      alloc := alloc.(rows := alloc.rows[i := charged]);
      store.WriteSheet(FundAllocations, alloc, lockAlloc);
    }
    assert store.sheets == Reconciled(withExpense, row, lockAlloc);
    store.Log("create_expense", Expenses, expenseId, user, details, stamp, lockLog);
  }

  /** The approve (approve = true) or reject button of one pending expense,
      applied to the expense table loaded when the page was drawn. */
  method ReviewExpense(store: Store, loaded: Table, expenseId: string, approve: bool, user: string,
                       stamp: Stamp, lockWrite: Lock, lockLog: Lock)
    modifies store
    ensures store.present
    ensures store.sheets ==
      ReviewEffect(old(store.present), old(store.sheets), loaded, expenseId, approve, user, stamp, lockWrite, lockLog)
  {
    var reviewed := loaded.(rows := Approvals.MarkReviewed(loaded.rows, expenseId, approve, user));
    store.WriteSheet(Expenses, reviewed, lockWrite);
    if approve {
      store.Log("approve_expense", Expenses, expenseId, user, "approved", stamp, lockLog);
    } else {
      store.Log("reject_expense", Expenses, expenseId, user, "rejected", stamp, lockLog);
    }
  }

  /** Add Engineer: append an active engineer, then log its name. */
  method AddEngineer(store: Store, engineerId: string, name: string, role: string, phone: string, email: string,
                     user: string, stamp: Stamp, lockRow: Lock, lockLog: Lock)
    modifies store
    ensures store.present
    ensures store.sheets ==
      Appended(Appended(Ensured(old(store.present), old(store.sheets)), Engineers,
                        NewEngineer(engineerId, name, role, phone, email), lockRow),
               AuditLog, NewAuditEntry(stamp, "create_engineer", Engineers, engineerId, user, name), lockLog)
  {
    store.AppendRow(Engineers, NewEngineer(engineerId, name, role, phone, email), lockRow);
    store.Log("create_engineer", Engineers, engineerId, user, name, stamp, lockLog);
  }

  /** Add Site: append an ongoing site with no end date, then log its name. */
  method AddSite(store: Store, siteId: string, siteName: string, location: string, startDate: string,
                 user: string, stamp: Stamp, lockRow: Lock, lockLog: Lock)
    modifies store
    ensures store.present
    ensures store.sheets ==
      Appended(Appended(Ensured(old(store.present), old(store.sheets)), Sites,
                        NewSite(siteId, siteName, location, startDate), lockRow),
               AuditLog, NewAuditEntry(stamp, "create_site", Sites, siteId, user, siteName), lockLog)
  {
    store.AppendRow(Sites, NewSite(siteId, siteName, location, startDate), lockRow);
    store.Log("create_site", Sites, siteId, user, siteName, stamp, lockLog);
  }
}
